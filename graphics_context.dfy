/** `GraphicsContext` of GraphicsContext.swift, with the command types of
    GraphicsTypes/GraphicsCommand.swift: a queue of drawing commands that
    `render` turns into frame-buffer calls. The frame buffer's `clear` and
    `drawLine` are not part of this model; `render` returns the calls it
    makes, in order, as a trace. */
module Graphics {
  import opened Wrappers
  import opened GraphicsTypes
  import opened Typeface
  import PixelBuffer

  /** `Line.Algorithm`. */
  datatype Algorithm = Naive | Bresenham

  datatype DrawTextPayload = DrawTextPayload(text: string, point: Point, font: Font, color: Color24)

  datatype DrawLinesPayload = DrawLinesPayload(lines: seq<Line>, width: real, color: Color24, algorithm: Algorithm)

  /** `DrawLinesPayload.init`, whose algorithm defaults to Bresenham's. */
  function MakeDrawLinesPayload(lines: seq<Line>, width: real, color: Color24): (p: DrawLinesPayload)
    ensures p.lines == lines && p.width == width && p.color == color && p.algorithm == Bresenham
  {
    DrawLinesPayload(lines, width, color, Bresenham)
  }

  datatype GraphicsCommand =
    | DrawText(textPayload: DrawTextPayload)
    | DrawLines(linesPayload: DrawLinesPayload)

  /** A call `render` makes on the frame buffer. */
  datatype DrawCall =
    | Clear
    | DrawLine(line: Line, width: int, height: int, color: Color24, algorithm: Algorithm)

  /** `Task.checkCancellation()` throws `CancellationError`. */
  datatype RenderError = Cancelled

  /** `[Line].scaledNonuniform(scaleX:scaleY:)`, which is not part of this
      model's sources: each x multiplied by `scaleX` and each y by `scaleY`. */
  function ScaledNonuniform(lines: seq<Line>, scaleX: real, scaleY: real): (r: seq<Line>)
    ensures |r| == |lines|
  {
    seq(|lines|, i requires 0 <= i < |lines| =>
      MakeLine(lines[i].start.x * scaleX, lines[i].start.y * scaleY,
               lines[i].end.x * scaleX, lines[i].end.y * scaleY))
  }

  /** `Double(size.height) / Double(size.width)`, as an exact ratio. */
  function AspectInverse(size: Size): (r: real)
    ensures size.width != 0 ==> r * size.width as real == size.height as real
    ensures size.width > 0 && size.height >= 0 ==> r >= 0.0
  {
    if size.width == 0 then 0.0 else size.height as real / size.width as real
  }

  /** One `drawLine` per line, in order, all with the same colour. */
  function DrawLineCalls(lines: seq<Line>, size: Size, color: Color24): (r: seq<DrawCall>)
    ensures |r| == |lines|
    ensures forall k :: 0 <= k < |lines| ==> r[k] == DrawLine(lines[k], size.width, size.height, color, Bresenham)
  {
    seq(|lines|, k requires 0 <= k < |lines| => DrawLine(lines[k], size.width, size.height, color, Bresenham))
  }

  lemma DrawLineCallsAppend(lines: seq<Line>, line: Line, size: Size, color: Color24)
    ensures DrawLineCalls(lines + [line], size, color)
         == DrawLineCalls(lines, size, color) + [DrawLine(line, size.width, size.height, color, Bresenham)]
  {
    var l := DrawLineCalls(lines + [line], size, color);
    var r := DrawLineCalls(lines, size, color) + [DrawLine(line, size.width, size.height, color, Bresenham)];
    assert |l| == |r|;
    forall k | 0 <= k < |l| ensures l[k] == r[k] {
      if k < |lines| {
        assert (lines + [line])[k] == lines[k];
      }
    }
  }

  /** The calls one command makes, or `None` for the text whose font yields
      no lines, at which point `render` returns. Text is laid out, moved to
      its point and squeezed horizontally by the inverse aspect ratio. */
  function CommandCalls(command: GraphicsCommand, size: Size): (r: Option<seq<DrawCall>>)
    ensures r.None? <==> command.DrawText? && FontLinesForString(command.textPayload.font, command.textPayload.text).None?
  {
    match command
    case DrawText(payload) =>
      var lines := FontLinesForString(payload.font, payload.text);
      if lines.None? then None
      else Some(DrawLineCalls(ScaledNonuniform(Offset(lines.value, payload.point), AspectInverse(size), 1.0), size, payload.color))
    case DrawLines(payload) =>
      Some(DrawLineCalls(payload.lines, size, payload.color))
  }

  /** A `drawLines` command makes one `drawLine` per payload line, in order,
      with the payload's colour; a `drawText` command whose font yields lines
      makes one per laid-out line. No command makes anything but `drawLine`
      calls. */
  lemma CommandCallsShape(command: GraphicsCommand, size: Size)
    ensures command.DrawLines? ==>
              var r := CommandCalls(command, size).value;
              |r| == |command.linesPayload.lines| &&
              forall k :: 0 <= k < |r| ==>
                r[k] == DrawLine(command.linesPayload.lines[k], size.width, size.height,
                                 command.linesPayload.color, Bresenham)
    ensures command.DrawText? && CommandCalls(command, size).Some? ==>
              |CommandCalls(command, size).value|
                == |FontLinesForString(command.textPayload.font, command.textPayload.text).value|
    ensures CommandCalls(command, size).Some? ==>
              forall k :: 0 <= k < |CommandCalls(command, size).value| ==> CommandCalls(command, size).value[k].DrawLine?
  {
  }

  /** What each command of `queue` draws, or `None` where `render` would
      return early on it. */
  function CallsPerCommand(queue: seq<GraphicsCommand>, size: Size): (r: seq<Option<seq<DrawCall>>>)
    ensures |r| == |queue|
    ensures forall k :: 0 <= k < |queue| ==> r[k] == CommandCalls(queue[k], size)
  {
    seq(|queue|, k requires 0 <= k < |queue| => CommandCalls(queue[k], size))
  }

  /** Commands are drawn independently of each other. */
  lemma CallsPerCommandConcat(a: seq<GraphicsCommand>, b: seq<GraphicsCommand>, size: Size)
    ensures CallsPerCommand(a + b, size) == CallsPerCommand(a, size) + CallsPerCommand(b, size)
  {
  }

  /** Walks per-command calls in order: everything drawn before the first
      `None`, and whether there was none. */
  function Gather(outcomes: seq<Option<seq<DrawCall>>>): (r: (seq<DrawCall>, bool))
    ensures r.1 ==> forall k :: 0 <= k < |outcomes| ==> outcomes[k].Some?
  {
    if outcomes == [] then ([], true)
    else
      var before := Gather(outcomes[..|outcomes| - 1]);
      if !before.1 then before
      else
        match outcomes[|outcomes| - 1]
        case None => (before.0, false)
        case Some(calls) => (before.0 + calls, true)
  }

  lemma GatherSnoc(outcomes: seq<Option<seq<DrawCall>>>, o: Option<seq<DrawCall>>)
    ensures Gather(outcomes + [o]) ==
              if !Gather(outcomes).1 then Gather(outcomes)
              else if o.None? then (Gather(outcomes).0, false)
              else (Gather(outcomes).0 + o.value, true)
  {
    assert (outcomes + [o])[..|outcomes + [o]| - 1] == outcomes;
  }

  /** The walk reaches the end exactly when no command failed. */
  lemma {:induction false} GatherCompletesIff(outcomes: seq<Option<seq<DrawCall>>>)
    ensures Gather(outcomes).1 <==> forall k :: 0 <= k < |outcomes| ==> outcomes[k].Some?
  {
    if outcomes != [] {
      var init := outcomes[..|outcomes| - 1];
      GatherCompletesIff(init);
      assert forall k :: 0 <= k < |init| ==> init[k] == outcomes[k];
    }
  }

  /** After the first failure nothing more is drawn. */
  lemma {:induction false} GatherEarlyExit(outcomes: seq<Option<seq<DrawCall>>>, rest: seq<Option<seq<DrawCall>>>)
    requires !Gather(outcomes).1
    ensures Gather(outcomes + rest) == Gather(outcomes)
  {
    if rest == [] {
      assert outcomes + rest == outcomes;
    } else {
      var init := rest[..|rest| - 1];
      GatherEarlyExit(outcomes, init);
      assert (outcomes + rest)[..|outcomes + rest| - 1] == outcomes + init;
    }
  }

  /** Two walks that both complete concatenate. */
  lemma {:induction false} GatherConcat(a: seq<Option<seq<DrawCall>>>, b: seq<Option<seq<DrawCall>>>)
    requires Gather(a).1 && Gather(b).1
    ensures Gather(a + b) == (Gather(a).0 + Gather(b).0, true)
  {
    if b == [] {
      assert a + b == a;
      assert Gather(a).0 + [] == Gather(a).0;
    } else {
      var init, last := b[..|b| - 1], b[|b| - 1];
      assert b == init + [last];
      assert a + b == (a + init) + [last];
      GatherSnoc(init, last);
      GatherConcat(a, init);
      GatherSnoc(a + init, last);
      var x, y, c := Gather(a).0, Gather(init).0, last.value;
      assert (x + y) + c == x + (y + c);
    }
  }

  /** The calls `render` makes after `clear` while walking `queue` in order,
      and whether it reached the end (`false` after an early return). */
  function RenderCalls(queue: seq<GraphicsCommand>, size: Size): (r: (seq<DrawCall>, bool))
    ensures r.1 ==> forall k :: 0 <= k < |queue| ==> CommandCalls(queue[k], size).Some?
  {
    Gather(CallsPerCommand(queue, size))
  }

  /** Every text command in `queue` has a font that yields lines. */
  ghost predicate TextAlwaysLaysOut(queue: seq<GraphicsCommand>)
  {
    forall k :: 0 <= k < |queue| && queue[k].DrawText? ==>
      FontLinesForString(queue[k].textPayload.font, queue[k].textPayload.text).Some?
  }

  /** `render` walks the whole queue exactly when no text fails to lay out. */
  lemma RenderCompletesIff(queue: seq<GraphicsCommand>, size: Size)
    ensures RenderCalls(queue, size).1 <==> TextAlwaysLaysOut(queue)
  {
    GatherCompletesIff(CallsPerCommand(queue, size));
  }

  /** Queues whose text uses fonts made by `Font.init` never return early. */
  lemma SystemFontsComplete(queue: seq<GraphicsCommand>, size: Size)
    requires forall k :: 0 <= k < |queue| && queue[k].DrawText? ==>
               queue[k].textPayload.font == FontNamed(System, queue[k].textPayload.font.size)
    ensures RenderCalls(queue, size).1
  {
    forall k | 0 <= k < |queue| && queue[k].DrawText?
      ensures FontLinesForString(queue[k].textPayload.font, queue[k].textPayload.text).Some?
    {
      SystemFontLines(System, queue[k].textPayload.font.size, queue[k].textPayload.text);
    }
    RenderCompletesIff(queue, size);
  }

  /** Once `render` has returned early, later commands make no calls. */
  lemma EarlyReturnIgnoresRest(queue: seq<GraphicsCommand>, rest: seq<GraphicsCommand>, size: Size)
    requires !RenderCalls(queue, size).1
    ensures RenderCalls(queue + rest, size) == RenderCalls(queue, size)
  {
    CallsPerCommandConcat(queue, rest, size);
    GatherEarlyExit(CallsPerCommand(queue, size), CallsPerCommand(rest, size));
  }

  /** `RenderCalls` of a queue with one more command at the end. */
  lemma RenderCallsSnoc(queue: seq<GraphicsCommand>, command: GraphicsCommand, size: Size)
    ensures RenderCalls(queue + [command], size) ==
              if !RenderCalls(queue, size).1 then RenderCalls(queue, size)
              else if CommandCalls(command, size).None? then (RenderCalls(queue, size).0, false)
              else (RenderCalls(queue, size).0 + CommandCalls(command, size).value, true)
  {
    CallsPerCommandConcat(queue, [command], size);
    assert CallsPerCommand([command], size) == [CommandCalls(command, size)];
    GatherSnoc(CallsPerCommand(queue, size), CommandCalls(command, size));
  }

  /** The calls of two queues that both complete are the calls of the first
      followed by those of the second: commands are drawn in queue order. */
  lemma RenderCallsConcat(a: seq<GraphicsCommand>, b: seq<GraphicsCommand>, size: Size)
    requires RenderCalls(a, size).1 && RenderCalls(b, size).1
    ensures RenderCalls(a + b, size) == (RenderCalls(a, size).0 + RenderCalls(b, size).0, true)
  {
    CallsPerCommandConcat(a, b, size);
    GatherConcat(CallsPerCommand(a, size), CallsPerCommand(b, size));
  }

  /** A queue of `drawLines` commands makes one call per payload line. */
  function PayloadLineCount(queue: seq<GraphicsCommand>): (n: nat)
  {
    if queue == [] then 0
    else
      PayloadLineCount(queue[..|queue| - 1])
      + (if queue[|queue| - 1].DrawLines? then |queue[|queue| - 1].linesPayload.lines| else 0)
  }

  lemma {:induction false} DrawLinesCallCount(queue: seq<GraphicsCommand>, size: Size)
    requires forall k :: 0 <= k < |queue| ==> queue[k].DrawLines?
    ensures RenderCalls(queue, size).1
    ensures |RenderCalls(queue, size).0| == PayloadLineCount(queue)
  {
    if queue != [] {
      var init, last := queue[..|queue| - 1], queue[|queue| - 1];
      DrawLinesCallCount(init, size);
      assert queue == init + [last];
      RenderCallsSnoc(init, last, size);
      CommandCallsShape(last, size);
    }
  }

  /** One pass of `render`'s loop: the lines a command draws, scaled for
      text, each drawn in order; `None` when a text command's font yields no
      lines, where `render` returns. */
  method DrawCommand(command: GraphicsCommand, size: Size) returns (calls: Option<seq<DrawCall>>)
    ensures calls == CommandCalls(command, size)
  {
    match command {
    case DrawText(payload) =>
      var lines := FontLinesForString(payload.font, payload.text);
      if lines.None? {
        return None;
      }
      var scaled := ScaledNonuniform(Offset(lines.value, payload.point), AspectInverse(size), 1.0);
      var drawn := [];
      for j := 0 to |scaled|
        invariant drawn == DrawLineCalls(scaled[..j], size, payload.color)
      {
        DrawLineCallsAppend(scaled[..j], scaled[j], size, payload.color);
        assert scaled[..j + 1] == scaled[..j] + [scaled[j]];
        drawn := drawn + [DrawLine(scaled[j], size.width, size.height, payload.color, Bresenham)];
      }
      assert scaled[..|scaled|] == scaled;
      calls := Some(drawn);
    case DrawLines(payload) =>
      var drawn := [];
      for j := 0 to |payload.lines|
        invariant drawn == DrawLineCalls(payload.lines[..j], size, payload.color)
      {
        DrawLineCallsAppend(payload.lines[..j], payload.lines[j], size, payload.color);
        assert payload.lines[..j + 1] == payload.lines[..j] + [payload.lines[j]];
        drawn := drawn + [DrawLine(payload.lines[j], size.width, size.height, payload.color, Bresenham)];
      }
      assert payload.lines[..|payload.lines|] == payload.lines;
      calls := Some(drawn);
    }
  }

  class GraphicsContext {
    var commandQueue: seq<GraphicsCommand>
    const frameBuffer: PixelBuffer.FrameBuffer
    const size: Size

    /** `init(size:)`: an empty queue and a `width x height` frame buffer. */
    constructor(size: Size)
      requires size.width * size.height >= 0
      ensures commandQueue == [] && this.size == size
      ensures frameBuffer.Valid() && fresh(frameBuffer.pixels)
      ensures frameBuffer.width == size.width && frameBuffer.height == size.height
    {
      commandQueue := [];
      this.size := size;
      frameBuffer := new PixelBuffer.FrameBuffer(size.width, size.height);
    }

    method QueueCommand(command: GraphicsCommand)
      modifies this
      ensures commandQueue == old(commandQueue) + [command]
    {
      commandQueue := commandQueue + [command];
    }

    method QueueCommands(commands: seq<GraphicsCommand>)
      modifies this
      ensures commandQueue == old(commandQueue) + commands
    {
      commandQueue := commandQueue + commands;
    }

    /** `render()`: throws before anything else when the task is cancelled;
        otherwise clears, draws the commands in queue order and empties the
        queue, unless a text command's font yields no lines, in which case it
        returns there and the queue is kept. */
    method Render(cancelled: bool) returns (outcome: Outcome<RenderError>, trace: seq<DrawCall>)
      modifies this
      ensures cancelled ==> outcome == Fail(Cancelled) && trace == [] && commandQueue == old(commandQueue)
      ensures !cancelled ==> outcome == Pass && trace == [Clear] + RenderCalls(old(commandQueue), size).0
      ensures !cancelled ==> commandQueue == if RenderCalls(old(commandQueue), size).1 then [] else old(commandQueue)
    {
      if cancelled {
        return Fail(Cancelled), [];
      }
      outcome := Pass;
      trace := [Clear];
      var queue := commandQueue;
      var i := 0;
      while i < |queue|
        invariant 0 <= i <= |queue| && commandQueue == queue
        invariant RenderCalls(queue[..i], size).1
        invariant trace == [Clear] + RenderCalls(queue[..i], size).0
      {
        var command := queue[i];
        assert queue[..i + 1] == queue[..i] + [command];
        RenderCallsSnoc(queue[..i], command, size);
        var calls := DrawCommand(command, size);
        if calls.None? {
          EarlyReturnIgnoresRest(queue[..i + 1], queue[i + 1..], size);
          assert queue[..i + 1] + queue[i + 1..] == queue;
          return;
        }
        trace := trace + calls.value;
        i := i + 1;
      }
      assert queue[..i] == queue;
      commandQueue := [];
    }
  }

  /** Queued commands are drawn after the ones already waiting, and a render
      that completes leaves nothing queued for the next one. */
  method QueueThenRender(context: GraphicsContext, commands: seq<GraphicsCommand>)
    returns (trace: seq<DrawCall>)
    requires RenderCalls(context.commandQueue, context.size).1 && RenderCalls(commands, context.size).1
    modifies context
    ensures trace == [Clear] + RenderCalls(old(context.commandQueue), context.size).0
                             + RenderCalls(commands, context.size).0
    ensures context.commandQueue == []
  {
    context.QueueCommands(commands);
    RenderCallsConcat(old(context.commandQueue), commands, context.size);
    var outcome;
    outcome, trace := context.Render(false);
  }
}
