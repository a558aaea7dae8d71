/** The sequential helpers of `Coordinator` in Coordinator.swift: the
    memo of data stores by name, the polyline drawn for the graph and the
    normalisation of readings into graph points. The monitoring and display
    loops around them are not modelled. */
module Coordination {
  import opened Wrappers
  import opened GraphicsTypes
  import opened DataStore
  import opened Graphics
  import opened ArrayAccess

  const GraphicsWidth: int := 320
  const GraphicsHeight: int := 240

  /** The line width of the graph's polyline. */
  const GraphLineWidth: real := 0.05

  class Coordinator<T> {
    var readingStores: map<string, HybridDataStore<T>>
    const graphicsContext: GraphicsContext

    /** `init(sensors:display:)`: no stores yet and a 320 x 240 context. */
    constructor()
      ensures readingStores == map[]
      ensures graphicsContext.size == Size(GraphicsWidth, GraphicsHeight) && graphicsContext.commandQueue == []
    {
      readingStores := map[];
      graphicsContext := new GraphicsContext(Size(GraphicsWidth, GraphicsHeight));
    }

    /** `dataStore(for:)`, given the store's name: the store already kept
        under that name, or else a new empty store, which is kept under the
        name from then on. Other names keep their stores. */
    method DataStoreFor(storeName: string) returns (store: HybridDataStore<T>)
      modifies this
      ensures storeName in old(readingStores) ==>
                store == old(readingStores)[storeName] && readingStores == old(readingStores)
      ensures storeName !in old(readingStores) ==>
                fresh(store) && store.readings == [] && readingStores == old(readingStores)[storeName := store]
      ensures storeName in readingStores && readingStores[storeName] == store
    {
      if storeName in readingStores {
        return readingStores[storeName];
      }
      var newDataStore := new HybridDataStore<T>();
      readingStores := readingStores[storeName := newDataStore];
      return newDataStore;
    }
  }

  /** Asking twice for the same name gives the same store, and only the
      first request can add an entry. */
  method DataStoreForTwice<T>(coordinator: Coordinator<T>, storeName: string)
    returns (first: HybridDataStore<T>, second: HybridDataStore<T>)
    modifies coordinator
    ensures first == second
    ensures coordinator.readingStores.Keys == old(coordinator.readingStores.Keys) + {storeName}
  {
    first := coordinator.DataStoreFor(storeName);
    second := coordinator.DataStoreFor(storeName);
  }

  /** `drawCommandForGraph(normalizedPoints:)`: a white polyline through the
      points, one segment per point; the first segment is the degenerate one
      from the first point to itself. The source force-unwraps the first
      point, so the points must not be empty. */
  method DrawCommandForGraph(normalizedPoints: seq<Point>) returns (command: GraphicsCommand)
    requires |normalizedPoints| >= 1
    ensures command.DrawLines?
    ensures command.linesPayload.width == GraphLineWidth && command.linesPayload.color == White
    ensures command.linesPayload.algorithm == Bresenham
    ensures |command.linesPayload.lines| == |normalizedPoints|
    ensures command.linesPayload.lines[0] == Line(normalizedPoints[0], normalizedPoints[0])
    ensures forall i :: 1 <= i < |normalizedPoints| ==>
              command.linesPayload.lines[i] == Line(normalizedPoints[i - 1], normalizedPoints[i])
    ensures forall i :: 0 <= i < |normalizedPoints| - 1 ==>
              command.linesPayload.lines[i].end == command.linesPayload.lines[i + 1].start
  {
    var lines: seq<Line> := [];
    var lastPoint := normalizedPoints[0];
    for i := 0 to |normalizedPoints|
      invariant |lines| == i
      invariant lastPoint == if i == 0 then normalizedPoints[0] else normalizedPoints[i - 1]
      invariant i >= 1 ==> lines[0] == Line(normalizedPoints[0], normalizedPoints[0])
      invariant forall k :: 1 <= k < i ==> lines[k] == Line(normalizedPoints[k - 1], normalizedPoints[k])
    {
      var point := normalizedPoints[i];
      lines := lines + [MakeLine(lastPoint.x, lastPoint.y, point.x, point.y)];
      lastPoint := point;
    }
    forall i | 0 <= i < |lines| - 1 ensures lines[i].end == lines[i + 1].start {
      if i == 0 {
        assert lines[0] == Line(normalizedPoints[0], normalizedPoints[0]);
      } else {
        assert lines[i] == Line(normalizedPoints[i - 1], normalizedPoints[i]);
      }
      assert lines[i + 1] == Line(normalizedPoints[i], normalizedPoints[i + 1]);
    }
    command := DrawLines(MakeDrawLinesPayload(lines, GraphLineWidth, White));
  }

  /** An `AnyStorableReading` as the graph sees it: a millisecond timestamp
      and the output's value. */
  datatype TimedReading = TimedReading(timestamp: int, output: real)

  /** `readings.min(by: { $1.timestamp > $0.timestamp })!.timestamp`. */
  function MinTimestamp(readings: seq<TimedReading>): (m: int)
    requires |readings| >= 1
    ensures exists k :: 0 <= k < |readings| && readings[k].timestamp == m
    ensures forall k :: 0 <= k < |readings| ==> m <= readings[k].timestamp
  {
    if |readings| == 1 then readings[0].timestamp
    else
      var result := MinTimestamp(readings[..|readings| - 1]);
      var e := readings[|readings| - 1].timestamp;
      if result > e then e else result
  }

  /** `readings.min(by: { $1.output.floatValue > $0.output.floatValue })`. */
  function MinOutput(readings: seq<TimedReading>): (m: real)
    requires |readings| >= 1
    ensures exists k :: 0 <= k < |readings| && readings[k].output == m
    ensures forall k :: 0 <= k < |readings| ==> m <= readings[k].output
  {
    if |readings| == 1 then readings[0].output
    else
      var result := MinOutput(readings[..|readings| - 1]);
      var e := readings[|readings| - 1].output;
      if result > e then e else result
  }

  /** `readings.max(by: { $1.output.floatValue > $0.output.floatValue })`. */
  function MaxOutput(readings: seq<TimedReading>): (m: real)
    requires |readings| >= 1
    ensures exists k :: 0 <= k < |readings| && readings[k].output == m
    ensures forall k :: 0 <= k < |readings| ==> readings[k].output <= m
  {
    if |readings| == 1 then readings[0].output
    else
      var result := MaxOutput(readings[..|readings| - 1]);
      var e := readings[|readings| - 1].output;
      if e > result then e else result
  }

  /** One reading's graph point: time since the earliest reading over the
      span, and the output's position between the least and greatest output
      (0 when all outputs are equal). */
  function NormalizedPoint(r: TimedReading, minTimestamp: int, minOutput: real, range: real, span: real): (p: Point)
    requires span > 0.0
    ensures p.x * span == (r.timestamp - minTimestamp) as real
    ensures range == 0.0 ==> p.y == 0.0
    ensures range != 0.0 ==> p.y * range == r.output - minOutput
  {
    var x := (r.timestamp - minTimestamp) as real / span;
    var y := if range == 0.0 then 0.0 else (r.output - minOutput) / range;
    Point(x, y)
  }

  /** `abs(minOutput - maxOutput)`. */
  function OutputRange(readings: seq<TimedReading>): (range: real)
    requires |readings| >= 1
    ensures range == MaxOutput(readings) - MinOutput(readings)
    ensures range >= 0.0
  {
    var d := MinOutput(readings) - MaxOutput(readings);
    if d < 0.0 then -d else d
  }

  /** `normalizedPointsForGraph(since:readings:)`, with `span` standing for
      `since.representativeMillis`: nil without readings, otherwise one point
      per reading, in the readings' order. */
  function NormalizedPointsForGraph(span: real, readings: seq<TimedReading>): (r: Option<seq<Point>>)
    requires span > 0.0
    ensures r.None? <==> readings == []
    ensures r.Some? ==> |r.value| == |readings|
  {
    if !IsNotEmpty(readings) then None
    else
      var minTimestamp := MinTimestamp(readings);
      var range := OutputRange(readings);
      var zeroOffset := MinOutput(readings);
      Some(seq(|readings|, k requires 0 <= k < |readings| =>
        NormalizedPoint(readings[k], minTimestamp, zeroOffset, range, span)))
  }

  /** A point of a reading inside the extent lies in the unit band: x is
      not negative and y is between 0 and 1. */
  lemma NormalizedPointInBand(r: TimedReading, minTimestamp: int, minOutput: real, maxOutput: real, span: real)
    requires span > 0.0
    requires minTimestamp <= r.timestamp && minOutput <= r.output <= maxOutput
    ensures var p := NormalizedPoint(r, minTimestamp, minOutput, maxOutput - minOutput, span);
            p.x >= 0.0 && 0.0 <= p.y <= 1.0
  {
    var range := maxOutput - minOutput;
    if range != 0.0 {
      assert (r.output - minOutput) / range <= range / range;
    }
  }

  /** Points keep the order of their readings' times and of their outputs. */
  lemma NormalizedPointMonotone(a: TimedReading, b: TimedReading, minTimestamp: int, minOutput: real, range: real, span: real)
    requires span > 0.0 && range >= 0.0
    ensures var pa, pb := NormalizedPoint(a, minTimestamp, minOutput, range, span),
                          NormalizedPoint(b, minTimestamp, minOutput, range, span);
            (a.timestamp <= b.timestamp ==> pa.x <= pb.x) && (a.output <= b.output ==> pa.y <= pb.y)
  {
    if a.timestamp <= b.timestamp {
      assert (a.timestamp - minTimestamp) as real <= (b.timestamp - minTimestamp) as real;
    }
  }

  /** Every normalised point lies in the band x >= 0, 0 <= y <= 1. */
  lemma NormalizedPointsInBand(span: real, readings: seq<TimedReading>)
    requires span > 0.0 && readings != []
    ensures var ps := NormalizedPointsForGraph(span, readings).value;
            forall k :: 0 <= k < |ps| ==> ps[k].x >= 0.0 && 0.0 <= ps[k].y <= 1.0
  {
    var ps := NormalizedPointsForGraph(span, readings).value;
    forall k | 0 <= k < |ps| ensures ps[k].x >= 0.0 && 0.0 <= ps[k].y <= 1.0 {
      NormalizedPointInBand(readings[k], MinTimestamp(readings), MinOutput(readings), MaxOutput(readings), span);
    }
  }

  /** The coordinates a point takes at the ends of the extent. */
  lemma NormalizedPointAtExtremes(r: TimedReading, minTimestamp: int, minOutput: real, range: real, span: real)
    requires span > 0.0
    ensures var p := NormalizedPoint(r, minTimestamp, minOutput, range, span);
            && (r.timestamp == minTimestamp ==> p.x == 0.0)
            && (r.output == minOutput || range == 0.0 ==> p.y == 0.0)
            && (range != 0.0 && r.output == minOutput + range ==> p.y == 1.0)
  {
  }

  /** The earliest reading sits at x = 0 and a least output at y = 0; a
      greatest output sits at y = 1 unless all outputs are equal, in which
      case every y is 0. */
  lemma NormalizedPointsExtremes(span: real, readings: seq<TimedReading>)
    requires span > 0.0 && readings != []
    ensures var ps := NormalizedPointsForGraph(span, readings).value;
            && (exists k :: 0 <= k < |ps| && ps[k].x == 0.0)
            && (exists k :: 0 <= k < |ps| && ps[k].y == 0.0)
            && (MinOutput(readings) != MaxOutput(readings) ==> exists k :: 0 <= k < |ps| && ps[k].y == 1.0)
            && (MinOutput(readings) == MaxOutput(readings) ==> forall k :: 0 <= k < |ps| ==> ps[k].y == 0.0)
  {
    var ps := NormalizedPointsForGraph(span, readings).value;
    var minTimestamp, minOutput, maxOutput := MinTimestamp(readings), MinOutput(readings), MaxOutput(readings);
    var range := OutputRange(readings);
    var t :| 0 <= t < |readings| && readings[t].timestamp == minTimestamp;
    NormalizedPointAtExtremes(readings[t], minTimestamp, minOutput, range, span);
    assert ps[t].x == 0.0;
    var lo :| 0 <= lo < |readings| && readings[lo].output == minOutput;
    NormalizedPointAtExtremes(readings[lo], minTimestamp, minOutput, range, span);
    assert ps[lo].y == 0.0;
    if minOutput != maxOutput {
      var hi :| 0 <= hi < |readings| && readings[hi].output == maxOutput;
      NormalizedPointAtExtremes(readings[hi], minTimestamp, minOutput, range, span);
      assert ps[hi].y == 1.0;
    } else {
      forall k | 0 <= k < |ps| ensures ps[k].y == 0.0 {
        NormalizedPointAtExtremes(readings[k], minTimestamp, minOutput, range, span);
      }
    }
  }

  /** Points keep the order of their readings' times and of their outputs. */
  lemma NormalizedPointsKeepOrder(span: real, readings: seq<TimedReading>)
    requires span > 0.0 && readings != []
    ensures var ps := NormalizedPointsForGraph(span, readings).value;
            && (forall j, k :: 0 <= j < |ps| && 0 <= k < |ps| && readings[j].timestamp <= readings[k].timestamp ==> ps[j].x <= ps[k].x)
            && (forall j, k :: 0 <= j < |ps| && 0 <= k < |ps| && readings[j].output <= readings[k].output ==> ps[j].y <= ps[k].y)
  {
    var ps := NormalizedPointsForGraph(span, readings).value;
    forall j, k | 0 <= j < |ps| && 0 <= k < |ps|
      ensures readings[j].timestamp <= readings[k].timestamp ==> ps[j].x <= ps[k].x
      ensures readings[j].output <= readings[k].output ==> ps[j].y <= ps[k].y
    {
      NormalizedPointMonotone(readings[j], readings[k], MinTimestamp(readings), MinOutput(readings), OutputRange(readings), span);
    }
  }
}
