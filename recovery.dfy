/** Panic stack traces (aws/ginruntime/recovery.go): the text Go's
    `debug.Stack()` produces is parsed into frames, the frames belonging to
    the panic machinery are cut off by locating the last `panic(...)` frame
    of runtime/panic.go, and frames are rendered as maps for the logger.
    The text of the dump is a parameter in place of `debug.Stack()`. */
module Recovery {
  import opened Wrappers
  import opened Text
  import opened Gin

  datatype Frame = Frame(file: string, line: string, func: string)

  /** `StackTrace`; the reason is the text `%v` gives for the recovered value. */
  datatype StackTrace = StackTrace(goRoutine: string, stack: seq<Frame>, reason: string)

  /** `Error()`: "panic in <goroutine>: <reason>+" (the format ends in a literal `+`). */
  function ErrorText(s: StackTrace): (r: string)
    ensures HasPrefix(r, "panic in ") && HasSuffix(r, "+")
    ensures |r| == |s.goRoutine| + |s.reason| + 12
    ensures r[9..9 + |s.goRoutine|] == s.goRoutine
    ensures r[9 + |s.goRoutine|..|r| - 1] == ": " + s.reason
  {
    var r := "panic in " + s.goRoutine + ": " + s.reason + "+";
    assert r[..9] == "panic in ";
    r
  }

  /** `Skip(n)`: drops the first n frames, n clamped into [0, len-1] so at
      least the last frame remains. An empty stack makes Go slice from -1. */
  function Skip(s: StackTrace, n: int): (r: StackTrace)
    requires |s.stack| > 0
    ensures r.goRoutine == s.goRoutine && r.reason == s.reason
    ensures 1 <= |r.stack| <= |s.stack| && r.stack == s.stack[|s.stack| - |r.stack|..]
    ensures n <= 0 ==> r.stack == s.stack
    ensures 0 <= n < |s.stack| ==> r.stack == s.stack[n..]
    ensures n >= |s.stack| ==> r.stack == [s.stack[|s.stack| - 1]]
  {
    var k := if n < 0 then 0 else n;
    var k := if k >= |s.stack| then |s.stack| - 1 else k;
    StackTrace(s.goRoutine, s.stack[k..], s.reason)
  }

  // ---------------------------------------------------------------------
  // Locating the panic frame (recovery.go:96-112)

  /** `^panic\((.*)\)$`: "panic(", anything without a line break, ")". */
  predicate IsPanicFunction(f: string) {
    |f| >= 7 && f[..6] == "panic(" && f[|f| - 1] == ')' && '\n' !in f
  }

  /** `^.*runtime/panic.go$`: no line break, ending in "runtime/panic",
      any one character, then "go". */
  predicate IsPanicFile(f: string) {
    |f| >= 16 && f[|f| - 16..|f| - 3] == "runtime/panic" && f[|f| - 2..] == "go" && '\n' !in f
  }

  predicate IsPanicFrame(frame: Frame) {
    IsPanicFunction(frame.func) && IsPanicFile(frame.file)
  }

  /** The highest index holding a panic frame, if any. */
  function LastPanicFrame(stack: seq<Frame>): (r: Option<nat>)
    ensures r.None? <==> forall i :: 0 <= i < |stack| ==> !IsPanicFrame(stack[i])
    ensures r.Some? ==> r.value < |stack| && IsPanicFrame(stack[r.value])
    ensures r.Some? ==> forall i :: r.value < i < |stack| ==> !IsPanicFrame(stack[i])
  {
    if |stack| == 0 then None
    else if IsPanicFrame(stack[|stack| - 1]) then Some(|stack| - 1)
    else LastPanicFrame(stack[..|stack| - 1])
  }

  /** The number of frames to skip: one past the last panic frame (index 0
      when there is none), or 0 when that would skip every frame. */
  function InternalFrames(stack: seq<Frame>): (n: nat)
    ensures n == 0 || n < |stack|
  {
    var p := if LastPanicFrame(stack).Some? then LastPanicFrame(stack).value else 0;
    if p + 1 < |stack| then p + 1 else 0
  }

  /** `estimateNumberOfInternalFrames`: scans from the last frame backwards
      and stops at the first panic frame met. */
  method EstimateNumberOfInternalFrames(s: StackTrace) returns (n: int)
    ensures n == InternalFrames(s.stack)
  {
    var panicFrameIndex := 0;
    var i := |s.stack| - 1;
    while i >= 0
      invariant -1 <= i < |s.stack|
      invariant forall j :: i < j < |s.stack| ==> !IsPanicFrame(s.stack[j])
      invariant panicFrameIndex == 0
    {
      var frame := s.stack[i];
      if IsPanicFunction(frame.func) && IsPanicFile(frame.file) {
        panicFrameIndex := i;
        break;
      }
      i := i - 1;
    }
    if panicFrameIndex + 1 < |s.stack| {
      n := panicFrameIndex + 1;
    } else {
      n := 0;
    }
  }

  /** `SkipFramesAfterPanic`: `Skip` by the estimated number of internal frames. */
  function SkipFramesAfterPanic(s: StackTrace): (r: StackTrace)
    requires |s.stack| > 0
  {
    Skip(s, InternalFrames(s.stack))
  }

  /** What is left after skipping: the frames after the last panic frame,
      which hold no panic frame; the whole stack when the panic frame is the
      last one; all but the first frame when there is no panic frame at all
      and there are at least two frames. */
  lemma {:induction false} SkipFramesAfterPanicKeeps(s: StackTrace)
    requires |s.stack| > 0
    ensures var p := LastPanicFrame(s.stack);
      var kept := SkipFramesAfterPanic(s).stack;
      (p.Some? && p.value + 1 < |s.stack| ==>
        kept == s.stack[p.value + 1..] && forall i :: 0 <= i < |kept| ==> !IsPanicFrame(kept[i])) &&
      (p.Some? && p.value + 1 == |s.stack| ==> kept == s.stack) &&
      (p.None? && |s.stack| >= 2 ==> kept == s.stack[1..]) &&
      (p.None? && |s.stack| == 1 ==> kept == s.stack)
  {
    var p := LastPanicFrame(s.stack);
    if p.Some? && p.value + 1 < |s.stack| {
      var kept := SkipFramesAfterPanic(s).stack;
      assert kept == s.stack[p.value + 1..];
      forall i | 0 <= i < |kept|
        ensures !IsPanicFrame(kept[i])
      {
        assert kept[i] == s.stack[p.value + 1 + i];
      }
    }
  }

  // ---------------------------------------------------------------------
  // Parsing the dump (recovery.go:116-139)

  /** One frame from its function line and its location line: the location
      is trimmed, the file is what precedes the first `:`, and the line is
      what follows it up to the next `:` or space ("" without a `:`). */
  function ParseFrame(func: string, location: string): Frame {
    var parts := Split(TrimSpace(location), ':');
    var line := if 1 < |parts| then Split(parts[1], ' ')[0] else "";
    Frame(parts[0], line, func)
  }

  /** A parsed file never holds a `:`, and a parsed line neither a `:` nor
      a space; a location without a `:` is all file. */
  lemma ParseFrameFields(func: string, location: string)
    ensures var r := ParseFrame(func, location);
      r.func == func && ':' !in r.file && ':' !in r.line && ' ' !in r.line
    ensures ':' !in TrimSpace(location) ==> ParseFrame(func, location) == Frame(TrimSpace(location), "", func)
  {
    var parts := Split(TrimSpace(location), ':');
    SplitPieces(TrimSpace(location), ':');
    SplitHead(TrimSpace(location), ':');
    if 1 < |parts| {
      SplitPieces(parts[1], ' ');
    }
  }

  /** The pieces of a split never contain the separator, and each is part of the text. */
  lemma {:induction false} SplitPieces(s: string, sep: char)
    ensures forall k :: 0 <= k < |Split(s, sep)| ==> sep !in Split(s, sep)[k]
    ensures forall k :: 0 <= k < |Split(s, sep)| ==> forall c :: c in Split(s, sep)[k] ==> c in s
    decreases |s|
  {
    var i := IndexOf(s, sep);
    if i >= 0 {
      SplitPieces(s[i + 1..], sep);
      var rest := Split(s[i + 1..], sep);
      assert Split(s, sep) == [s[..i]] + rest;
      forall k | 0 <= k < |Split(s, sep)|
        ensures forall c :: c in Split(s, sep)[k] ==> c in s
      {
        if k > 0 {
          assert Split(s, sep)[k] == rest[k - 1];
          forall c | c in rest[k - 1]
            ensures c in s
          {
            assert c in s[i + 1..];
          }
        } else {
          forall c | c in s[..i]
            ensures c in s
          {
            var j :| 0 <= j < i && s[..i][j] == c;
            assert s[j] == c;
          }
        }
      }
    }
  }

  /** A location whose trimmed text is `file:tail` parses to that file and
      to the text of `tail` before its first space. */
  lemma ParseFrameAt(func: string, location: string, file: string, tail: string)
    requires TrimSpace(location) == file + [':'] + tail
    requires ':' !in file && ':' !in tail
    ensures ParseFrame(func, location) == Frame(file, Split(tail, ' ')[0], func)
  {
    SplitAt(file, ':', tail);
    SplitHead(tail, ':');
  }

  /** Trimming the tab-indented location of a frame as Go prints it. */
  lemma TrimLocation(file: string, line: string, offset: string)
    requires file != [] && !IsSpace(file[0])
    requires offset != [] && !IsSpace(offset[|offset| - 1])
    ensures TrimSpace("\t" + file + ":" + line + " +0x" + offset) == file + [':'] + (line + [' '] + ("+0x" + offset))
  {
    var x := file + [':'] + (line + [' '] + ("+0x" + offset));
    assert "\t" + file + ":" + line + " +0x" + offset == "\t" + x;
    assert x[0] == file[0] && x[|x| - 1] == offset[|offset| - 1];
    TrimIndented(x);
  }

  /** A location as Go prints it, a tab, "file:line +0xoffset", reads back
      as that file and line. */
  lemma ParseFrameRoundTrip(func: string, file: string, line: string, offset: string)
    requires file != [] && !IsSpace(file[0]) && ':' !in file
    requires ':' !in line && ' ' !in line
    requires offset != [] && !IsSpace(offset[|offset| - 1]) && ':' !in offset
    ensures ParseFrame(func, "\t" + file + ":" + line + " +0x" + offset) == Frame(file, line, func)
  {
    var tail := line + [' '] + ("+0x" + offset);
    TrimLocation(file, line, offset);
    assert ':' !in tail;
    ParseFrameAt(func, "\t" + file + ":" + line + " +0x" + offset, file, tail);
    SplitAt(line, ' ', "+0x" + offset);
  }

  /** One value per pair of lines, read by `f`; an odd last line is
      ignored. */
  function Pairs<T>(lines: seq<string>, f: (string, string) -> T): (r: seq<T>)
    ensures 2 * |r| <= |lines| < 2 * |r| + 2
  {
    if |lines| < 2 then []
    else [f(lines[0], lines[1])] + Pairs(lines[2..], f)
  }

  /** Value i comes from lines 2i and 2i+1. */
  lemma {:induction false} PairsAt<T>(lines: seq<string>, f: (string, string) -> T, i: nat)
    requires 2 * i + 1 < |lines|
    ensures i < |Pairs(lines, f)| && Pairs(lines, f)[i] == f(lines[2 * i], lines[2 * i + 1])
    decreases i
  {
    if i > 0 {
      PairsAt(lines[2..], f, i - 1);
      assert lines[2..][2 * (i - 1)] == lines[2 * i];
      assert lines[2..][2 * (i - 1) + 1] == lines[2 * i + 1];
    }
  }

  /** The frames the dump's lines after the first describe: one per pair of
      lines, an odd last line ignored. */
  function FramesOf(lines: seq<string>): (r: seq<Frame>)
    ensures 2 * |r| <= |lines| < 2 * |r| + 2
  {
    Pairs(lines, ParseFrame)
  }

  /** The parse part of `GetStack`: the first line, without one trailing
      `:`, names the goroutine; the other lines are read two by two into a
      preallocated array of frames. */
  method GetStack(dump: string) returns (goroutine: string, frames: seq<Frame>)
    ensures goroutine == TrimSuffix(Split(dump, '\n')[0], ":")
    ensures frames == FramesOf(Split(dump, '\n')[1..])
  {
    var all := Split(dump, '\n');
    goroutine := all[0];
    var lines := all[1..];
    goroutine := TrimSuffix(goroutine, ":");
    frames := ReadFrames(lines);
  }

  /** The loop of `GetStack` over the preallocated array. */
  method ReadFrames(lines: seq<string>) returns (frames: seq<Frame>)
    ensures frames == FramesOf(lines)
  {
    ghost var expected := FramesOf(lines);
    var half := |lines| / 2;
    Halves(|lines|);
    var out := new Frame[half];
    var i := 0;
    while i < out.Length
      invariant 0 <= i <= out.Length
      invariant out[..i] == expected[..i]
    {
      var frame := ReadFrame(lines, i);
      out[i] := frame;
      assert out[..i + 1] == expected[..i] + [frame];
      i := i + 1;
    }
    assert out[..] == out[..i];
    frames := out[..];
  }

  /** The body of the loop: frame `i` from its function line and its
      location line. */
  method ReadFrame(lines: seq<string>, i: nat) returns (frame: Frame)
    requires 2 * i + 1 < |lines|
    ensures i < |FramesOf(lines)| && frame == FramesOf(lines)[i]
  {
    PairsAt(lines, ParseFrame, i);
    var func := lines[2 * i];
    var location := lines[2 * i + 1];
    frame := ParseFrame(func, location);
  }

  /** `n / 2` pairs fit in `n` lines, with at most one line left over. */
  lemma Halves(n: nat)
    ensures 2 * (n / 2) <= n < 2 * (n / 2) + 2
  {
  }

  // ---------------------------------------------------------------------
  // Rendering frames for the logger (recovery.go:35-51)

  /** The errors the marshaller may be given. */
  datatype LoggedError = Trace(trace: StackTrace) | NotATrace(text: string)

  function FrameMap(f: Frame): (m: map<string, string>)
    ensures m.Keys == {"file", "line", "function"}
  {
    map["file" := f.file, "line" := f.line, "function" := f.func]
  }

  /** The map of a frame gives the frame back. */
  lemma FrameMapInverse(f: Frame)
    ensures var m := FrameMap(f); Frame(m["file"], m["line"], m["function"]) == f
  {
  }

  /** The maps of a stack, frame by frame. */
  function FrameMaps(stack: seq<Frame>): (r: seq<map<string, string>>)
    ensures |r| == |stack|
  {
    seq(|stack|, i requires 0 <= i < |stack| => FrameMap(stack[i]))
  }

  /** The maps of a stack give the stack back, frame by frame, in order. */
  lemma FrameMapsInverse(stack: seq<Frame>)
    ensures var r := FrameMaps(stack);
      forall i :: 0 <= i < |r| ==> Frame(r[i]["file"], r[i]["line"], r[i]["function"]) == stack[i]
  {
    forall i | 0 <= i < |stack|
      ensures Frame(FrameMaps(stack)[i]["file"], FrameMaps(stack)[i]["line"], FrameMaps(stack)[i]["function"]) == stack[i]
    {
      FrameMapInverse(stack[i]);
    }
  }

  const NotATraceWarning: string := "Cannot extract stack trace from non-StackTrace error"

  /** `StackTraceMarshaller`: one map per frame, in order, for a stack
      trace; nothing (and a warning) for any other error. */
  method StackTraceMarshaller(err: LoggedError, log: Logger) returns (out: Option<seq<map<string, string>>>)
    modifies log
    ensures err.NotATrace? ==> out.None? && log.entries == old(log.entries) + [Entry(Warn, NotATraceWarning, err.text)]
    ensures err.Trace? ==> out == Some(FrameMaps(err.trace.stack)) && log.entries == old(log.entries)
  {
    if err.NotATrace? {
      log.Log(Warn, NotATraceWarning, err.text);
      return None;
    }
    var stack := err.trace.stack;
    var maps := new map<string, string>[|stack|];
    var i := 0;
    while i < |stack|
      invariant 0 <= i <= |stack|
      invariant forall k :: 0 <= k < i ==> maps[k] == FrameMap(stack[k])
      invariant log.entries == old(log.entries)
    {
      maps[i] := FrameMap(stack[i]);
      i := i + 1;
    }
    assert maps[..] == FrameMaps(stack);
    out := Some(maps[..]);
  }

  // ---------------------------------------------------------------------
  // The middleware (recovery.go:60-71)

  const PanicMessage: string := "A panic occurred, which will cause a 500 INTERNAL_SERVER_ERROR response"

  /** `RecoveryMiddleware`: runs the rest of the chain; if it panicked with
      `panicked`, parses the dump, skips the panic machinery, logs the trace
      at error level and aborts with an empty 500, unless a response went
      out before the panic: its status then stands. A dump always holds the
      frames of the recovery code itself, so at least one frame is parsed. */
  method RecoveryMiddleware<E>(c: Context<E>, log: Logger, rest: Downstream<E>, panicked: Option<string>, dump: string)
    requires |Split(dump, '\n')| >= 3
    modifies c, log
    ensures c.errors == old(c.errors) + rest.errors
    ensures panicked.None? ==>
      c.aborted == (old(c.aborted) || rest.aborts) &&
      c.response == WriteAll(old(c.response), rest.writes) &&
      log.entries == old(log.entries)
    ensures panicked.Some? ==>
      var lines := Split(dump, '\n');
      var trace := StackTrace(TrimSuffix(lines[0], ":"), FramesOf(lines[1..]), panicked.value);
      var kept := SkipFramesAfterPanic(trace);
      c.aborted && c.response == Some(Written(WriteAll(old(c.response), rest.writes), HeaderNow(500))) &&
      log.entries == old(log.entries) + [StackEntry(Error, PanicMessage, ErrorText(kept), FrameMaps(kept.stack))]
  {
    c.Next(rest);
    if panicked.Some? {
      var goroutine, stack := GetStack(dump);
      var trace := StackTrace(goroutine, stack, panicked.value);
      trace := SkipFramesAfterPanic(trace);
      var rendered := StackTraceMarshaller(LoggedError.Trace(trace), log);
      log.LogStack(Error, PanicMessage, ErrorText(trace), rendered.value);
      c.AbortWithStatus(500);
    }
  }

  /** What goes out after a panic (`PanicResponse` is the middleware's
      response for the writes made before the panic): an empty 500 when
      nothing was sent, and otherwise exactly what was sent, whose status
      stands, since gin ignores a new status once a response is written. */
  lemma PanicResponse(sent: Option<Sent>, ws: seq<Write>)
    ensures var r := Written(WriteAll(sent, ws), HeaderNow(500));
      (sent.None? && ws == [] ==> r == Sent(500, [])) &&
      (sent.Some? ==> r == Sent(sent.value.status, sent.value.bodies + Bodies(ws))) &&
      (sent.None? && ws != [] ==> r == Sent(ws[0].status, Bodies(ws)))
  {
    WriteAllSends(sent, ws);
  }

  /** What the middleware logs as the stack is the maps of exactly the
      frames after the last panic frame, when one is found below the top
      (none of which is a panic frame, by `SkipFramesAfterPanicKeeps`);
      `FrameMapsInverse` reads the frames back from the maps. */
  lemma LoggedStackAfterPanic(s: StackTrace)
    requires |s.stack| > 0
    ensures var p := LastPanicFrame(s.stack);
      p.Some? && p.value + 1 < |s.stack| ==>
        FrameMaps(SkipFramesAfterPanic(s).stack) == FrameMaps(s.stack[p.value + 1..])
  {
    SkipFramesAfterPanicKeeps(s);
  }


}
