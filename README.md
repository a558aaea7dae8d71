# ScalesCore in Dafny

A model of the sequential core of ScalesCore, a Swift package that reads
environmental sensors and draws their readings on a small display. Each core
Swift file has its own Dafny module:

- `DataStore` (`data_store.dfy`) models `HybridDataStore`: an in-memory,
  append-only buffer of `StoredReading`s. It has an advisory capacity of 1000
  that nothing enforces, a stub `retrieve(since:)` and `retrieveLast`.
- `Persistence` (`persister.dfy`) models `Persister`: it encodes a batch of
  dated items and names a file after the batch's date extent. It writes that
  file into the flat `PersistedSensorData` directory, asking the write not
  to overwrite an existing file.
  - The file system is a class holding a map from paths to bytes.
  - The JSON encoder and the text of a date are function parameters.
- `ArrayAccess` (`array_access.dfy`) models `isNotEmpty` and
  `subscript(safe:)` of Extension/File.swift.
- `ArrayExtension` (`array_extension.dfy`) models `decimate(into:)`, with
  Swift's truncating integer division written out.
- `PixelBuffer` (`frame_buffer.dfy`) models `FrameBuffer`: a row-major array
  of 24-bit colours, updated in place.
- `Typeface` (`typeface.dfy`) models:
  - the character-to-glyph mapping and the glyph line tables;
  - bounding boxes, and `offset`/`scaled` on line arrays;
  - the `System.linesForString` layout loop;
  - `Font`, which delegates to its typeface.
- `SensorOutputType` and `SensorLocation` (`sensor_output_type.dfy`,
  `sensor_location.dfy`) model the text names of output types and
  locations.
- `Graphics` (`graphics_context.dfy`) models `GraphicsContext`: a command
  queue that `render` walks in order. The frame-buffer calls it makes are
  returned as a trace of `DrawCall`s.
- `Coordination` (`coordinator.dfy`) models the sequential helpers of
  `Coordinator`:
  - the get-or-create memo of data stores;
  - the polyline drawn for the graph;
  - the normalisation of readings into graph points.

Shared value types (`Point`, `Line`, `Color24`, `Size`, `byte`) are in
`graphics_types.dfy`. The `Option`/`Outcome`/`Result` wrappers are in
`wrappers.dfy`, and two arithmetic facts about multiplication and Euclidean
division are in `int_arith.dfy`.

Modelling choices:

- Swift `Int` is an unbounded `int`. Swift traps on `Int` overflow; the
  model does not (see "Left out").
- `Double`, `Float` and `CGFloat` values are exact `real`s.
- A throwing function returns an `Outcome` or a `Result`.
- Methods that update fields in Swift are methods of Dafny classes. Each is
  proved against a function that specifies the new state:
  - `Render` against `RenderCalls`;
  - `Persist` against `PersistResult`.
- Loops over local variables are methods with loop invariants, proved
  against a specification of their result:
  - `SystemLinesForString` against `LayoutOf`;
  - `Decimate` against `IsStrideSample`.

## Model

| member | source | states |
|---|---|---|
| `ArrayAccess.IsNotEmpty` | Sources/ScalesCore/Extension/File.swift:5-7 | true exactly when the array has at least one element, false exactly for the empty array |
| `ArrayAccess.SafeGet` | Sources/ScalesCore/Extension/File.swift:11-17 | none for the empty array; a value exactly when `0 <= index < count`, and then it is `a[index]`; never traps |
| `ArrayAccess.SafeGetAppend` | Sources/ScalesCore/Extension/File.swift:11-17 | after appending `x`, index `count` safely yields `x` and every index that was in range yields what it did before |
| `ArrayExtension.SwiftDiv` | Sources/ScalesCore/Extension/Array+.swift:12 | Swift's truncating `/` for a non-negative dividend: its magnitude is `n` divided by the magnitude of `d`, and it is non-negative for a positive divisor and non-positive for a negative one |
| `ArrayExtension.WindowStep` | Sources/ScalesCore/Extension/Array+.swift:14-18 | while scanning indices, a multiple of the step is the next one due and moves the window on; any other index leaves it |
| `ArrayExtension.Decimate` | Sources/ScalesCore/Extension/Array+.swift:7-21 | the empty array, or a count larger than the array, is returned unchanged; otherwise the result is exactly the elements at indices `0, s, 2s, ...` in order, and all of them, where `s` is the array's length divided by the magnitude of `count`; it traps only where Swift divides by zero |
| `ArrayExtension.StrideSampleIsIndexFilter` | Sources/ScalesCore/Extension/Array+.swift:14-18 | an element is kept when its index is divisible by the step, at position `index / step`; every kept element is an element at such an index |
| `ArrayExtension.StrideSampleStartsWithFirst` | Sources/ScalesCore/Extension/Array+.swift:14-18 | a non-empty array's result is non-empty and starts with the first element |
| `ArrayExtension.StrideSampleIsSubsequence` | Sources/ScalesCore/Extension/Array+.swift:14-18 | the result is a subsequence of the input: its elements come from strictly increasing indices |
| `ArrayExtension.DecimateLength` | Sources/ScalesCore/Extension/Array+.swift:12-18 | the result has at least as many elements as the magnitude of `count`, and a count equal to the length returns the whole array |
| `PixelBuffer.PixelIndex` | Sources/ScalesCore/FrameBuffer.swift:26-28 | row-major: for `0 <= x < width` and `y >= 0`, dividing the index by the width gives back `y` and the remainder is `x` |
| `PixelBuffer.InGridIndexInRange` | Sources/ScalesCore/FrameBuffer.swift:26-28 | every coordinate inside the grid gives an index inside the `width * height` buffer |
| `PixelBuffer.InGridIndexInjective` | Sources/ScalesCore/FrameBuffer.swift:26-28 | distinct coordinates with `x` inside a row give distinct indices |
| `PixelBuffer.IndexSpillsIntoNextRow` | Sources/ScalesCore/FrameBuffer.swift:26-28 | with no per-axis check, `x + width` on row `y` addresses the pixel `x` on row `y + 1` |
| `PixelBuffer.IndexCoversBuffer` | Sources/ScalesCore/FrameBuffer.swift:26-28 | every buffer position is the index of an in-grid coordinate |
| `PixelBuffer.FrameBuffer.constructor` | Sources/ScalesCore/FrameBuffer.swift:11-16 | the buffer holds exactly `width * height` pixels, all black; a negative product (which traps) is excluded |
| `PixelBuffer.FrameBuffer.Index` | Sources/ScalesCore/FrameBuffer.swift:26-28 | in-grid coordinates map into the buffer, row-major |
| `PixelBuffer.FrameBuffer.PlotPixel` | Sources/ScalesCore/FrameBuffer.swift:18-20 | the pixel at the index takes the colour; every other pixel and the length are unchanged |
| `PixelBuffer.FrameBuffer.PixelAt` | Sources/ScalesCore/FrameBuffer.swift:22-24 | reads the pixel at the index and changes nothing |
| `PixelBuffer.PlotThenRead` | Sources/ScalesCore/FrameBuffer.swift:18-24 | reading after plotting gives the colour plotted; a pixel at another index keeps its old colour |
| `PixelBuffer.FreshBufferIsBlack` | Sources/ScalesCore/FrameBuffer.swift:11-24 | a new buffer reads black at every in-grid coordinate |
| `DataStore.Undated` | Sources/ScalesCore/Persistence/DataStore.swift:47-53 | one stored reading per value, in order, each with a nil date |
| `DataStore.UndatedAppend` | Sources/ScalesCore/Persistence/DataStore.swift:47-53 | saving one more value adds exactly its undated reading at the end |
| `DataStore.HybridDataStore.constructor` | Sources/ScalesCore/Persistence/DataStore.swift:42-45 | a new store holds no readings |
| `DataStore.HybridDataStore.TotalReadingsCount` | Sources/ScalesCore/Persistence/DataStore.swift:32-34 | equals the number of stored readings |
| `DataStore.HybridDataStore.AvailableCapacity` | Sources/ScalesCore/Persistence/DataStore.swift:36-38 | the count over 1000: never negative, 0 exactly when empty, at most 1 exactly up to 1000 readings, so above 1 past the capacity |
| `DataStore.HybridDataStore.Save` | Sources/ScalesCore/Persistence/DataStore.swift:47-53 | appends exactly one reading with a nil date, earlier readings unchanged; never fails with `full` |
| `DataStore.HybridDataStore.Retrieve` | Sources/ScalesCore/Persistence/DataStore.swift:55-57 | returns nothing for every date and reads no state |
| `DataStore.HybridDataStore.RetrieveLast` | Sources/ScalesCore/Persistence/DataStore.swift:59-61 | nil exactly when empty, otherwise the most recently appended reading |
| `DataStore.SaveAll` | Sources/ScalesCore/Persistence/DataStore.swift:47-53 | a run of saves appends the undated values in call order and nothing else |
| `DataStore.FillFreshStore` | Sources/ScalesCore/Persistence/DataStore.swift:29-61 | after saving `n` values into a new store: count `n`, ratio above 1 exactly when `n > 1000` (capacity unenforced), last reading the last value, `retrieve` empty |
| `Persistence.MaxDateItem` | Sources/ScalesCore/Persistence/Persister.swift:45 | `max(by:)` with `>`: present exactly for a non-empty batch, an item of it, and dated no later than any item |
| `Persistence.MinDateItem` | Sources/ScalesCore/Persistence/Persister.swift:46 | `min(by:)` with `>`: present exactly for a non-empty batch, an item of it, and dated no earlier than any item |
| `Persistence.MaxIsEarliestMinIsLatest` | Sources/ScalesCore/Persistence/Persister.swift:45-46 | the "max" item carries the earliest date of the batch and the "min" item the latest |
| `Persistence.FileName` | Sources/ScalesCore/Persistence/Persister.swift:45-50 | a name exists exactly when the batch is non-empty |
| `Persistence.FileNameIsEarliestThenLatest` | Sources/ScalesCore/Persistence/Persister.swift:45-50 | the name is the earliest date's text, a hyphen, then the latest date's text |
| `Persistence.SameDatesSameFileName` | Sources/ScalesCore/Persistence/Persister.swift:45-50 | two batches with the same set of dates get the same name, whatever their order, size or values |
| `Persistence.TargetPath` | Sources/ScalesCore/Persistence/Persister.swift:50-51 | present exactly for a non-empty batch; one component directly under the data directory |
| `Persistence.PersistResult` | Sources/ScalesCore/Persistence/Persister.swift:41-54 | an encoder failure, an empty batch (`dateRangeCreation`), an existing file or success, each exactly in its case; nothing changes on failure; on success exactly one new path holds the encoding of the whole batch and no other entry changes |
| `Persistence.PersistKeepsDirectoryFlat` | Sources/ScalesCore/Persistence/Persister.swift:36-53 | a directory whose files all lie directly in the data directory stays so after `persist` |
| `Persistence.PersistTwiceFails` | Sources/ScalesCore/Persistence/Persister.swift:53 | persisting the same batch again fails because its file exists, and leaves the files as they were |
| `Persistence.DataDirectoryFor` | Sources/ScalesCore/Persistence/Persister.swift:32-36 | fails with `dataDirectoryLocation` exactly when there is no document directory; otherwise the first one with `PersistedSensorData` appended |
| `Persistence.FileSystem.WriteWithoutOverwriting` | Sources/ScalesCore/Persistence/Persister.swift:53 | succeeds exactly when the path is absent, and then adds it; otherwise fails and changes nothing |
| `Persistence.Persister.Persist` | Sources/ScalesCore/Persistence/Persister.swift:41-54 | the outcome and the new files are those of `PersistResult` on the old files |
| `Persistence.NewPersister` | Sources/ScalesCore/Persistence/Persister.swift:28-39 | fails with `dataDirectoryLocation` exactly when there is no document directory; otherwise its data directory is `DataDirectoryFor`'s |
| `SensorOutputType.TemperatureRawValue` | Sources/ScalesCore/HardwareAbstractions/SensorOutputType.swift:10-12 | the raw value is the case name `celsius` |
| `SensorOutputType.PressureRawValue` | Sources/ScalesCore/HardwareAbstractions/SensorOutputType.swift:14-16 | the raw value is the case name `hPa` |
| `SensorOutputType.HumidityRawValue` | Sources/ScalesCore/HardwareAbstractions/SensorOutputType.swift:18-20 | the raw value is the case name `rhd` |
| `SensorOutputType.TemperatureUnitFromRawValue` | Sources/ScalesCore/HardwareAbstractions/SensorOutputType.swift:10-12 | `init(rawValue:)`: a unit exactly for `celsius`, whose raw value is the text read |
| `SensorOutputType.PressureUnitFromRawValue` | Sources/ScalesCore/HardwareAbstractions/SensorOutputType.swift:14-16 | a unit exactly for `hPa`, whose raw value is the text read |
| `SensorOutputType.HumidityUnitFromRawValue` | Sources/ScalesCore/HardwareAbstractions/SensorOutputType.swift:18-20 | a unit exactly for `rhd`, whose raw value is the text read |
| `SensorOutputType.KindPrefix` | Sources/ScalesCore/HardwareAbstractions/SensorOutputType.swift:22-31 | the kind's prefix holds no hyphen, so the first hyphen of a name ends it |
| `SensorOutputType.ToString` | Sources/ScalesCore/HardwareAbstractions/SensorOutputType.swift:22-31 | starts with the kind's prefix followed by a hyphen, and something follows the hyphen |
| `SensorOutputType.ToStringForm` | Sources/ScalesCore/HardwareAbstractions/SensorOutputType.swift:22-31 | every name is prefix, hyphen, unit raw value |
| `SensorOutputType.ParseToString` | Sources/ScalesCore/HardwareAbstractions/SensorOutputType.swift:22-31 | splitting a name at its hyphen recovers the output type |
| `SensorOutputType.ToStringParse` | Sources/ScalesCore/HardwareAbstractions/SensorOutputType.swift:22-31 | any text that parses is exactly the name of what it parses to |
| `SensorOutputType.ToStringInjective` | Sources/ScalesCore/HardwareAbstractions/SensorOutputType.swift:22-31 | distinct output types have distinct names |
| `SensorOutputType.ToStringExamples` | Sources/ScalesCore/HardwareAbstractions/SensorOutputType.swift:24-29 | `temperature-celsius`, `pressure-hPa` and `humidity-rhd` |
| `SensorLocation.LocationToString` | Sources/ScalesCore/HardwareAbstractions/SensorLocation.swift:12-14 | `lat-`, the latitude's text, `long-`, the longitude's text, with nothing else |
| `SensorLocation.ToString` | Sources/ScalesCore/HardwareAbstractions/SensorLocation.swift:17-24 | exactly `Indoor` or `Outdoor` without coordinates; at least 15 characters with them |
| `SensorLocation.ToStringForm` | Sources/ScalesCore/HardwareAbstractions/SensorLocation.swift:17-24 | `Indoor`/`Outdoor` alone without coordinates, and followed by the location's text with them |
| `SensorLocation.KindAndCoordinatesRecoverable` | Sources/ScalesCore/HardwareAbstractions/SensorLocation.swift:17-24 | the first letter of a name tells indoor from outdoor, and whether it is longer than the kind word tells whether there are coordinates |
| `SensorLocation.IndoorNeverOutdoor` | Sources/ScalesCore/HardwareAbstractions/SensorLocation.swift:17-24 | no indoor name equals an outdoor name |
| `Typeface.RectangleWidth` | Sources/ScalesCore/GraphicsTypes/Rectangle.swift:5-7 | the non-negative horizontal distance between the corners |
| `Typeface.GlyphNameOf` | Sources/ScalesCore/GraphicsTypes/Typeface.swift:233-260 | a glyph exactly for `0`-`9` and `.`; every digit is a digit glyph and only `.` maps to the dot |
| `Typeface.CharacterOfGlyphNameOf` | Sources/ScalesCore/GraphicsTypes/Typeface.swift:233-260 | a character with a glyph is that glyph's own character |
| `Typeface.GlyphNameRoundTrip` | Sources/ScalesCore/GraphicsTypes/Typeface.swift:233-260 | every glyph is reached from exactly one character |
| `Typeface.GlyphOf` | Sources/ScalesCore/GraphicsTypes/Typeface.swift:97-199 | each table glyph carries its own name and at least three segments |
| `Typeface.GlyphLineCounts` | Sources/ScalesCore/GraphicsTypes/Typeface.swift:97-199 | segment counts: zero 5, one 3, two 7, three 8, four 3, five 7, six 6, seven 4, eight 15, nine 4, dot 4 |
| `Typeface.MinValue` | Sources/ScalesCore/GraphicsTypes/Typeface.swift:204-208 | on a non-empty array: an element no greater than any element |
| `Typeface.MaxValue` | Sources/ScalesCore/GraphicsTypes/Typeface.swift:210-214 | on a non-empty array: an element no less than any element |
| `Typeface.XValues` | Sources/ScalesCore/GraphicsTypes/Typeface.swift:77 | the start and end x of each segment, in order |
| `Typeface.YValues` | Sources/ScalesCore/GraphicsTypes/Typeface.swift:78 | the start and end y of each segment, in order |
| `Typeface.BoundingBox` | Sources/ScalesCore/GraphicsTypes/Typeface.swift:76-80 | the smallest rectangle holding every segment: it contains both ends of every segment, and each of its sides passes through a segment end |
| `Typeface.WidthOfSpan` | Sources/ScalesCore/GraphicsTypes/Typeface.swift:76-80 | a glyph whose x coordinates reach exactly `lo` and `hi` is `hi - lo` wide |
| `Typeface.ZeroWidth` | Sources/ScalesCore/GraphicsTypes/Typeface.swift:99-106 | the zero is 4 units wide |
| `Typeface.OneWidth` | Sources/ScalesCore/GraphicsTypes/Typeface.swift:107-113 | the one is 2 units wide |
| `Typeface.TwoWidth` | Sources/ScalesCore/GraphicsTypes/Typeface.swift:114-123 | the two is 4 units wide |
| `Typeface.ThreeWidth` | Sources/ScalesCore/GraphicsTypes/Typeface.swift:124-134 | the three is 4 units wide |
| `Typeface.FourWidth` | Sources/ScalesCore/GraphicsTypes/Typeface.swift:135-140 | the four is 4 units wide |
| `Typeface.FiveWidth` | Sources/ScalesCore/GraphicsTypes/Typeface.swift:141-150 | the five is 4 units wide |
| `Typeface.SixWidth` | Sources/ScalesCore/GraphicsTypes/Typeface.swift:151-159 | the six is 4 units wide |
| `Typeface.SevenWidth` | Sources/ScalesCore/GraphicsTypes/Typeface.swift:160-166 | the seven is 4 units wide |
| `Typeface.EightWidth` | Sources/ScalesCore/GraphicsTypes/Typeface.swift:167-184 | the eight is 4 units wide |
| `Typeface.NineWidth` | Sources/ScalesCore/GraphicsTypes/Typeface.swift:185-191 | the nine is 4 units wide |
| `Typeface.DotWidth` | Sources/ScalesCore/GraphicsTypes/Typeface.swift:192-197 | the dot is half a unit wide |
| `Typeface.GlyphWidths` | Sources/ScalesCore/GraphicsTypes/Typeface.swift:76-80 | the computed bounding-box width of every glyph equals the tabulated `BoxWidth` the layout uses |
| `Typeface.Offset` | Sources/ScalesCore/GraphicsTypes/Typeface.swift:218-222 | keeps the number of segments |
| `Typeface.Scaled` | Sources/ScalesCore/GraphicsTypes/Typeface.swift:224-228 | keeps the number of segments |
| `Typeface.OffsetInverse` | Sources/ScalesCore/GraphicsTypes/Typeface.swift:218-222 | offsetting by the opposite point restores the segments |
| `Typeface.OffsetAppend` | Sources/ScalesCore/GraphicsTypes/Typeface.swift:218-222 | offsetting works segment by segment: it distributes over concatenation, keeping order |
| `Typeface.ScaledTwice` | Sources/ScalesCore/GraphicsTypes/Typeface.swift:61-64 | the double scaling equals one scaling by the product |
| `Typeface.ScaledInverse` | Sources/ScalesCore/GraphicsTypes/Typeface.swift:224-228 | scaling by a non-zero factor is undone by its inverse |
| `Typeface.MeasureGlyph` | Sources/ScalesCore/GraphicsTypes/Typeface.swift:42-46 | `previousGlyph.boundingBox.width` is the glyph's tabulated width |
| `Typeface.SystemLinesForString` | Sources/ScalesCore/GraphicsTypes/Typeface.swift:33-65 | never nil; its lines are the layout of the whole string, scaled by 1/5 and then by the size |
| `Typeface.LayoutLineCount` | Sources/ScalesCore/GraphicsTypes/Typeface.swift:50-64 | at every size, the number of lines is the sum of the glyph segment counts of the mapped characters |
| `Typeface.EmptyStringHasNoLines` | Sources/ScalesCore/GraphicsTypes/Typeface.swift:33-65 | the empty string yields no lines at any size |
| `Typeface.LayoutKeepsEarlierLines` | Sources/ScalesCore/GraphicsTypes/Typeface.swift:54-56 | appending characters never changes lines already emitted: output follows string order |
| `Typeface.PreviousIsLastMapped` | Sources/ScalesCore/GraphicsTypes/Typeface.swift:50-58 | `previousGlyph` is the last character that has a glyph; unmapped characters do not reset it |
| `Typeface.LayoutAdvance` | Sources/ScalesCore/GraphicsTypes/Typeface.swift:40-58 | each character moves the offset by 1 plus the width of the last mapped glyph (0 before any); a mapped character appends its glyph at the new offset, an unmapped one appends nothing |
| `Typeface.LayoutStep` | Sources/ScalesCore/GraphicsTypes/Typeface.swift:40-58 | one character moves the offset by 1 plus the previous glyph's width; an unmapped character changes nothing else; a mapped one becomes the previous glyph |
| `Typeface.LayoutOf` | Sources/ScalesCore/GraphicsTypes/Typeface.swift:36-59 | every character, mapped or not, advances the offset by at least one; the empty string has no lines and no previous glyph |
| `Typeface.LayoutCharacter` | Sources/ScalesCore/GraphicsTypes/Typeface.swift:40-58 | one pass of the loop body leaves the accumulators as `LayoutStep` specifies |
| `Typeface.FirstGlyphAtOffsetOne` | Sources/ScalesCore/GraphicsTypes/Typeface.swift:36-58 | a leading mapped character is drawn at x offset 1 |
| `Typeface.LayoutExample` | Sources/ScalesCore/GraphicsTypes/Typeface.swift:38-58 | `"1a5"` ends at offset 7 with 10 lines: the unmapped `a` advances by 1 plus the width of the one, and so does the `5` after it |
| `Typeface.FontNamed` | Sources/ScalesCore/GraphicsTypes/Typeface.swift:10-16 | keeps the size, and the typeface lays out every string with the `System` layout at that size |
| `Typeface.FontLinesForString` | Sources/ScalesCore/GraphicsTypes/Typeface.swift:18-20 | a font on the `System` typeface yields the `System` lines at its own size |
| `Typeface.SystemFontLines` | Sources/ScalesCore/GraphicsTypes/Typeface.swift:10-20 | a font made by `init(.system, size:)` delegates to the `System` layout at its own size and never yields nil |
| `Graphics.MakeDrawLinesPayload` | Sources/ScalesCore/GraphicsTypes/GraphicsCommand.swift:25-30 | keeps lines, width and colour; the algorithm defaults to Bresenham |
| `Graphics.AspectInverse` | Sources/ScalesCore/GraphicsContext.swift:34 | height over width: multiplied by a non-zero width it gives the height, and it is non-negative for a positive width |
| `Graphics.ScaledNonuniform` | Sources/ScalesCore/GraphicsContext.swift:35 | keeps the number of segments |
| `Graphics.DrawLineCalls` | Sources/ScalesCore/GraphicsContext.swift:35-42 | one `drawLine` per line, in order, with the context's size, the colour and Bresenham |
| `Graphics.CommandCalls` | Sources/ScalesCore/GraphicsContext.swift:27-43 | a command stops `render` exactly when it is text whose font yields no lines |
| `Graphics.CommandCallsShape` | Sources/ScalesCore/GraphicsContext.swift:28-42 | `drawLines` draws each payload line in order with the payload colour; text draws one call per laid-out line; every call is a `drawLine` |
| `Graphics.DrawCommand` | Sources/ScalesCore/GraphicsContext.swift:27-43 | the loop body's calls for one command are `CommandCalls` |
| `Graphics.CallsPerCommand` | Sources/ScalesCore/GraphicsContext.swift:26-43 | one entry per queued command, each that command's calls |
| `Graphics.CallsPerCommandConcat` | Sources/ScalesCore/GraphicsContext.swift:26-43 | commands are drawn independently of their neighbours |
| `Graphics.Gather` | Sources/ScalesCore/GraphicsContext.swift:26-44 | the walk over per-command calls completes only if every command produced calls |
| `Graphics.GatherSnoc` | Sources/ScalesCore/GraphicsContext.swift:26-44 | one more command after an early return changes nothing; otherwise it stops the walk or appends its calls |
| `Graphics.GatherCompletesIff` | Sources/ScalesCore/GraphicsContext.swift:26-44 | the walk reaches the end exactly when no command stops it |
| `Graphics.GatherEarlyExit` | Sources/ScalesCore/GraphicsContext.swift:29-31 | after the first stop, later commands add nothing |
| `Graphics.GatherConcat` | Sources/ScalesCore/GraphicsContext.swift:26-44 | two complete walks concatenate |
| `Graphics.RenderCalls` | Sources/ScalesCore/GraphicsContext.swift:26-44 | a completed render means every command of the queue produced its calls |
| `Graphics.RenderCompletesIff` | Sources/ScalesCore/GraphicsContext.swift:26-31 | `render` walks the whole queue exactly when every text command's font yields lines |
| `Graphics.SystemFontsComplete` | Sources/ScalesCore/GraphicsContext.swift:29-31 | a queue whose text uses fonts made by `Font.init` never returns early |
| `Graphics.EarlyReturnIgnoresRest` | Sources/ScalesCore/GraphicsContext.swift:29-31 | once `render` has returned, commands after that point make no calls |
| `Graphics.RenderCallsSnoc` | Sources/ScalesCore/GraphicsContext.swift:26-44 | the calls of a queue with one more command: unchanged after an early return, otherwise stopped by it or extended by its calls |
| `Graphics.RenderCallsConcat` | Sources/ScalesCore/GraphicsContext.swift:26-44 | the calls of two complete queues are those of the first followed by those of the second: queue order |
| `Graphics.DrawLinesCallCount` | Sources/ScalesCore/GraphicsContext.swift:39-42 | a queue of `drawLines` commands completes with one call per payload line |
| `Graphics.GraphicsContext.constructor` | Sources/ScalesCore/GraphicsContext.swift:7-10 | an empty queue and a fresh, valid `width x height` frame buffer |
| `Graphics.GraphicsContext.QueueCommand` | Sources/ScalesCore/GraphicsContext.swift:12-14 | appends one command at the end |
| `Graphics.GraphicsContext.QueueCommands` | Sources/ScalesCore/GraphicsContext.swift:16-18 | appends all commands in order |
| `Graphics.GraphicsContext.Render` | Sources/ScalesCore/GraphicsContext.swift:20-47 | cancelled: throws, no calls, queue kept; otherwise `clear` then the queue's calls in order, with the queue emptied exactly when no text failed to lay out |
| `Graphics.QueueThenRender` | Sources/ScalesCore/GraphicsContext.swift:16-46 | queued commands are drawn after the waiting ones, and a completed render leaves the queue empty |
| `Coordination.Coordinator.constructor` | Sources/ScalesCore/Coordinator.swift:15-27 | no stores and a 320 x 240 context with an empty queue |
| `Coordination.Coordinator.DataStoreFor` | Sources/ScalesCore/Coordinator.swift:57-66 | the existing store when the name is present, with the map unchanged; otherwise a new empty store, added under the name with other entries unchanged |
| `Coordination.DataStoreForTwice` | Sources/ScalesCore/Coordinator.swift:57-66 | asking twice for one name gives the same store and adds at most that name |
| `Coordination.DrawCommandForGraph` | Sources/ScalesCore/Coordinator.swift:137-150 | a white, 0.05-wide, Bresenham `drawLines` with one line per point: the first from the first point to itself, line `i` joining points `i-1` and `i`, so consecutive lines connect |
| `Coordination.MinTimestamp` | Sources/ScalesCore/Coordinator.swift:158 | a timestamp of the readings, no greater than any |
| `Coordination.MaxOutput` | Sources/ScalesCore/Coordinator.swift:159 | an output of the readings, no less than any |
| `Coordination.MinOutput` | Sources/ScalesCore/Coordinator.swift:160 | an output of the readings, no greater than any |
| `Coordination.OutputRange` | Sources/ScalesCore/Coordinator.swift:161 | the greatest output minus the least, never negative |
| `Coordination.NormalizedPointsForGraph` | Sources/ScalesCore/Coordinator.swift:152-173 | nil exactly without readings; otherwise one point per reading |
| `Coordination.NormalizedPoint` | Sources/ScalesCore/Coordinator.swift:164-170 | x times the span is the time since the earliest reading; y is 0 for a zero range, otherwise y times the range is the output above the least |
| `Coordination.NormalizedPointInBand` | Sources/ScalesCore/Coordinator.swift:164-170 | a reading within the extent maps to `x >= 0` and `0 <= y <= 1` |
| `Coordination.NormalizedPointMonotone` | Sources/ScalesCore/Coordinator.swift:164-170 | later readings get no smaller x, larger outputs no smaller y |
| `Coordination.NormalizedPointsInBand` | Sources/ScalesCore/Coordinator.swift:152-173 | every point lies in `x >= 0`, `0 <= y <= 1` |
| `Coordination.NormalizedPointAtExtremes` | Sources/ScalesCore/Coordinator.swift:166-167 | the earliest time maps to x 0, the least output (or any output when the range is 0) to y 0, the greatest to y 1 |
| `Coordination.NormalizedPointsExtremes` | Sources/ScalesCore/Coordinator.swift:152-173 | some point has x 0 and some y 0; some has y 1 unless all outputs are equal, in which case every y is 0 |
| `Coordination.NormalizedPointsKeepOrder` | Sources/ScalesCore/Coordinator.swift:152-173 | points keep the order of their readings' times and of their outputs |

## Left out

- `Persistence.FileSystem.WriteWithoutOverwriting`: the write is taken to fail exactly when the file exists and otherwise to store the bytes. This is an assumption about how Foundation treats `.withoutOverwriting` together with `.atomic`, which its documentation says are not meant to be combined.
- `Persistence.PersistTwiceFails`: rests on the same assumption about `.withoutOverwriting` with `.atomic`.
- `Typeface.LayoutOf`: a `string` is a sequence of Unicode scalars, while Swift's `for character in string` walks grapheme clusters. A cluster of several scalars, such as `"\r\n"` or a digit followed by a combining accent, is laid out here as several characters: it advances the offset more than once, and the digit is drawn where Swift finds no glyph.
- `Typeface.SystemLinesForString`: iterates Unicode scalars, not grapheme clusters, as stated for `LayoutOf`.
- `PixelBuffer.PixelIndex`: Swift traps when `width * y + x` overflows `Int`; the unbounded model computes the exact value. The same holds for `PixelBuffer.FrameBuffer.Index` and for the `width * height` buffer size.
- Concurrency is not modelled. This covers the `Task` in `HybridDataStore.save`, actor isolation of `GraphicsContext` and `Persister`, and the `Coordinator` sensor-monitoring and display-update loops with their sleeps and error counters. `save` is an immediate append, and `render` runs to its end or its early return without interleaving.
- `render`'s cancellation check is a `cancelled` parameter.
- `FileManager` directory creation in `Persister.init` is not modelled, nor are write errors other than an existing file. `writePermissions` is declared but never thrown.
- `JSONEncoder` is a function parameter whose `None` stands for a thrown encoding error.
- How a `Date` or a `Double` becomes text in string interpolation is a parameter (`describe`, `format`). Any `/` such text could contain is not split into path components.
- Floating-point rounding is not modelled; all `Double`, `Float` and `CGFloat` values are exact reals. In particular:
  - the `Float` ratio of `availableCapacity`;
  - the 1/5 and size scalings of glyphs;
  - the aspect ratio in `render`;
  - the graph coordinates.
- `Graphics.AspectInverse`: gives 0 for a zero width, where Swift's `Double` division gives infinity or NaN.
- `Array<Double>.min`/`max` start from infinity and minus infinity. They are modelled only on non-empty arrays, which is the only way glyph bounding boxes use them.
- `FrameBuffer.clear` and `FrameBuffer.drawLine` are not part of this model, and neither is `[Line].scaledNonuniform`; `render` records the calls it makes as a trace instead. `ScaledNonuniform` is taken to multiply each x and each y by its own factor.
- `Coordinator.storeName(for:)` is not modelled: it reads fields that the shown `Reading` does not have. `DataStoreFor` takes the store's name directly.
- Coordinator uses a throwing `HybridDataStore` initialiser with a persistence policy, which is not part of this model. `DataStoreFor` creates the store with the shown `init()`, which cannot fail.
- `Coordination.NormalizedPointsForGraph`: `Since.representativeMillis` is not part of this model. It is a `span` parameter required to be positive, so a zero span (which would give infinite x values) is not modelled.
- `Coordination.NormalizedPointsForGraph`: only the shape of the result is proved (nil for no readings, one point per reading, in order, in the unit band, extremes at 0 and 1). The `Float`-to-`Double` conversions are not modelled.
- The `Coordinator` display loop is not modelled: it retrieves readings, sorts the points, decimates to the graph width and queues the text commands.
- `Color24.packed565` has no definition in the sources and is not modelled.
- Declaration-only and forwarding files are not modelled: the protocols, `AnySensor`, `ReadingProvider`, `ReadingProcessor`, `Display`, `Sensor`, `ButtonHandler`, `Logger`, the `Date` and `TimeInterval` extensions, and the glyph enumeration of `Font.swift`.
- `StoredReading.elementSizeBytesIncludingAlignment` (a memory-layout query) is not modelled.
