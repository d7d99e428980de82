/** multisink_logger.go: sinkLogger, a logger that also writes every call
    to a set of sinks, each with its own writer, threshold and format. The
    loggers derived from one root share the sink set, the level cell, the
    watermark cell `lowestLevel` and the root writer. Log swaps the
    logger's writer for each sink's in turn, formats the line once per
    sink, and puts the root writer back. Lines are built as log.go's
    lineDetails builds them (LineDetails). */
module MultiSink {
  import opened Values
  import opened Levels
  import opened Writers
  import opened Implied
  import LineDetails
  import IntLogger

  /** The LoggerOptions fields NewMultiSink reads. */
  datatype Options = Options(
    name: string,
    level: Level,
    output: Option<Destination>,
    jsonFormat: bool,
    includeLocation: bool,
    timeFormat: string)

  /** `&LoggerOptions{}`, which a nil options pointer stands for. */
  const Empty: Options := Options("", NoLevel, None, false, false, "")

  /** The options NewMultiSink reads: nil stands for empty options. */
  function Given(opts: Option<Options>): Options {
    if opts.Some? then opts.value else Empty
  }

  /** Sink: a writer of its own (newWriter with no colour option, so
      uncoloured), a threshold, and the format. */
  class Sink {
    const writer: Writer
    const level: Level
    const json: bool

    /** NewSink */
    constructor (level: Level, json: bool, output: Destination)
      ensures this.level == level && this.json == json
      ensures fresh(writer) && writer.b == "" && writer.w == output && writer.color == ColorOff
    {
      this.level := level;
      this.json := json;
      writer := new Writer(output, ColorOff, false);
    }
  }

  /** The sink map, shared by every logger derived from one root. */
  class SinkSet {
    var items: set<Sink>

    constructor ()
      ensures items == {}
    {
      items := {};
    }
  }

  /** The sinks a call at `level` reaches, in the order `order` visits them,
      counting the first `k`: each writes, through its own writer, the line
      in its format to the output its writer routes `level` to. This is the
      part of the output `o` receives. */
  function Delivered(order: seq<Sink>, k: nat, o: Output, level: Level, text: string, jtext: string): seq<string>
    requires k <= |order|
  {
    if k == 0 then []
    else
      var s := order[k - 1];
      Delivered(order, k - 1, o, level, text, jtext)
        + (if level >= s.level && Target(s.writer.w, level) == o then [if s.json then jtext else text] else [])
  }

  /** `order` visits every sink of `items` exactly once: the order in which
      a range over the map happens to go. */
  predicate Enumerates(order: seq<Sink>, items: set<Sink>) {
    && (forall s :: s in items ==> s in order)
    && (forall i :: 0 <= i < |order| ==> order[i] in items)
    && (forall i, j :: 0 <= i < j < |order| ==> order[i] != order[j])
  }

  /** A sink whose output no other sink in `order` shares receives exactly
      one line when the call clears its threshold and none otherwise, and
      in its own format. */
  lemma {:induction false} DeliveredAlone(order: seq<Sink>, k: nat, s: Sink, level: Level, text: string, jtext: string)
    requires k <= |order|
    requires forall i :: 0 <= i < k && order[i] != s ==> Target(order[i].writer.w, level) != Target(s.writer.w, level)
    requires forall i, j :: 0 <= i < j < k ==> order[i] != order[j]
    ensures Delivered(order, k, Target(s.writer.w, level), level, text, jtext)
         == if s in order[..k] && level >= s.level then [if s.json then jtext else text] else []
  {
    if k > 0 {
      DeliveredAlone(order, k - 1, s, level, text, jtext);
      assert order[..k] == order[..k - 1] + [order[k - 1]];
      if order[k - 1] == s {
        assert s !in order[..k - 1];
      }
    }
  }

  /** An output no sink in `order` routes to receives nothing from them. */
  lemma {:induction false} DeliveredNone(order: seq<Sink>, k: nat, o: Output, level: Level, text: string, jtext: string)
    requires k <= |order|
    requires forall i :: 0 <= i < k ==> Target(order[i].writer.w, level) != o
    ensures Delivered(order, k, o, level, text, jtext) == []
  {
    if k > 0 {
      DeliveredNone(order, k - 1, o, level, text, jtext);
    }
  }

  /** The watermark after sinks with levels `levels` were registered, in
      order, on a logger created at `init`; deregistering never changes
      it. */
  function Watermark(init: Level, levels: seq<Level>): Level {
    if |levels| == 0 then init
    else
      var w := Watermark(init, levels[..|levels| - 1]);
      if levels[|levels| - 1] < w then levels[|levels| - 1] else w
  }

  /** The watermark is the least of the initial level and every level ever
      registered: it is at most each of them, and it is one of them. It
      only goes down as sinks are registered. */
  lemma {:induction false} WatermarkIsMinimum(init: Level, levels: seq<Level>)
    ensures Watermark(init, levels) <= init
    ensures forall i :: 0 <= i < |levels| ==> Watermark(init, levels) <= levels[i]
    ensures Watermark(init, levels) == init || Watermark(init, levels) in levels
  {
    if |levels| > 0 {
      var front := levels[..|levels| - 1];
      WatermarkIsMinimum(init, front);
      assert levels == front + [levels[|levels| - 1]];
    }
  }

  /** sinkLogger */
  class SinkLogger {
    const json: bool
    const caller: bool
    const name: string
    const timeFormat: string
    var writer: Writer
    const level: IntLogger.LevelCell
    const lowest: IntLogger.LevelCell
    const sinks: SinkSet
    const implied: seq<Value>

    /** The writers of the registered sinks. */
    function SinkWriters(): set<Writer>
      reads sinks
    {
      set s | s in sinks.items :: s.writer
    }

    /** The outputs a call at `lvl` can reach: those the sinks' writers and
      the root writer route it to. */
    function Outputs(root: Writer, lvl: Level): set<Output>
      reads sinks
    {
      (set s | s in sinks.items :: Target(s.writer.w, lvl)) + {Target(root.w, lvl)}
    }

    /** Between calls every buffer is empty (Log always flushes) and no
      writer colours its output; the watermark is at most every sink's
      threshold, so it never cuts off a line a sink would take; the level
      and watermark cells are two cells; the implied pairs have string
      keys, as With builds them. */
    predicate Valid()
      reads this, writer, level, lowest, sinks, SinkWriters()
    {
      && writer.b == "" && writer.color == ColorOff
      && level != lowest
      && StringKeys(implied)
      && (forall s :: s in sinks.items ==> s.writer.b == "" && s.writer.color == ColorOff && lowest.level <= s.level)
    }

    /** NewMultiSink: nil options are empty options, no output is the
      default output, no level is the default level, an empty time format
      is the default layout; level and watermark both start at the level,
      and there are no sinks. */
    constructor New(opts: Option<Options>, defaultOutput: Destination)
      ensures Valid()
      ensures fresh(writer) && fresh(level) && fresh(lowest) && fresh(sinks)
      ensures json == Given(opts).jsonFormat && caller == Given(opts).includeLocation && name == Given(opts).name
      ensures timeFormat == (if Given(opts).timeFormat != "" then Given(opts).timeFormat else IntLogger.TimeFormat)
      ensures writer.w == (if Given(opts).output.Some? then Given(opts).output.value else defaultOutput)
      ensures level.level == (if Given(opts).level == NoLevel then DefaultLevel else Given(opts).level)
      ensures lowest.level == level.level
      ensures sinks.items == {} && implied == []
    {
      var o := Given(opts);
      var output := if o.output.Some? then o.output.value else defaultOutput;
      var lvl := if o.level == NoLevel then DefaultLevel else o.level;
      json := o.jsonFormat;
      caller := o.includeLocation;
      name := o.name;
      timeFormat := if o.timeFormat != "" then o.timeFormat else IntLogger.TimeFormat;
      writer := new Writer(output, ColorOff, false);
      level := new IntLogger.LevelCell(lvl);
      lowest := new IntLogger.LevelCell(lvl);
      sinks := new SinkSet();
      implied := [];
    }

    /** `sl := *l` with the name or the implied pairs replaced. */
    constructor Copy(json: bool, caller: bool, name: string, timeFormat: string, writer: Writer,
                     level: IntLogger.LevelCell, lowest: IntLogger.LevelCell, sinks: SinkSet, implied: seq<Value>)
      ensures this.json == json && this.caller == caller && this.name == name
      ensures this.timeFormat == timeFormat && this.writer == writer
      ensures this.level == level && this.lowest == lowest && this.sinks == sinks && this.implied == implied
    {
      this.json := json;
      this.caller := caller;
      this.name := name;
      this.timeFormat := timeFormat;
      this.writer := writer;
      this.level := level;
      this.lowest := lowest;
      this.sinks := sinks;
      this.implied := implied;
    }

    /** RegisterSink: the watermark drops to the sink's threshold when that
      is lower, whether or not the sink was registered already; the sink
      joins the set. A sink's writer is written by nothing but Log, which
      always flushes it, so its buffer is empty, as NewSink leaves it. */
    method RegisterSink(sink: Sink)
      requires Valid() && sink.writer.b == "" && sink.writer.color == ColorOff
      modifies lowest, sinks
      ensures Valid()
      ensures lowest.level == (if sink.level < old(lowest.level) then sink.level else old(lowest.level))
      ensures sinks.items == old(sinks.items) + {sink}
    {
      if sink.level < lowest.level {
        lowest.level := sink.level;
      }
      if sink in sinks.items {
        return;
      }
      sinks.items := sinks.items + {sink};
    }

    /** DeregisterSink: the sink leaves the set (if it was there); the
      watermark stays where it is. */
    method DeregisterSink(sink: Sink)
      requires Valid()
      modifies sinks
      ensures Valid()
      ensures sinks.items == old(sinks.items) - {sink}
      ensures lowest.level == old(lowest.level)
    {
      sinks.items := sinks.items - {sink};
    }

    /** Level */
    function GetLevel(): (l: Level)
      reads level
      ensures l == level.level
    {
      level.level
    }

    /** The lineDetails of a call at moment `t`. */
    function Details(t: Moment): LineDetails.Details {
      LineDetails.Details(t, timeFormat, name, caller, implied)
    }

    /** The bytes log or logJSON writes for a call. A text line is only
      ever written for arguments build accepts (Log requires it); the empty
      text otherwise stands for nothing written. */
    function LineText(asJson: bool, p: Printer, t: Moment, site: Option<CallSite>,
                      lvl: Level, msg: string, args: seq<Value>): string
    {
      if asJson then LineDetails.JsonLine(Details(t), p, site, lvl, msg, args)
      else if LineDetails.Writable(implied + args) then LineDetails.Line(Details(t), p, site, lvl, msg, args)
      else ""
    }

    /** Whether a call at `lvl` writes some text line: it clears the
      watermark and a text sink's threshold, or the logger's own threshold
      with the logger in text format. */
    predicate WritesText(lvl: Level)
      reads this, level, lowest, sinks
    {
      lvl >= lowest.level
      && ((exists s :: s in sinks.items && !s.json && lvl >= s.level) || (!json && lvl >= level.level))
    }

    /** log and logJSON: the line of a call in each format, built by
      lineDetails. */
    method Render(p: Printer, t: Moment, site: Option<CallSite>, lvl: Level, msg: string, args: seq<Value>)
      returns (text: string, jtext: string)
      ensures text == LineText(false, p, t, site, lvl, msg, args)
      ensures jtext == LineText(true, p, t, site, lvl, msg, args)
    {
      jtext := LineDetails.BuildJson(Details(t), p, site, lvl, msg, args);
      text := "";
      if LineDetails.Writable(implied + args) {
        text := LineDetails.Build(Details(t), p, site, lvl, msg, args);
      }
    }

    /** One sink's share of Log: the logger's writer is swapped for the
      sink's, the line goes into it and is flushed at the call's level, and
      the logger's writer is put back. */
    method Deliver(s: Sink, lvl: Level, line: string)
      requires s.writer.b == "" && s.writer.color == ColorOff
      modifies this, s.writer, Target(s.writer.w, lvl)
      ensures writer == old(writer) && s.writer.b == ""
      ensures Target(s.writer.w, lvl).written == old(Target(s.writer.w, lvl).written) + [line]
    {
      var lwriter := writer;
      writer := s.writer;
      var _ := writer.WriteString(line);
      assert writer.b == line;
      var _ := writer.Flush(lvl);
      writer := lwriter;
    }

    /** Log: below the watermark nothing at all happens. Otherwise each
      sink, in the order the map is ranged over, whose threshold the call
      clears gets the line in its format on its own output; then, if the
      call clears the logger's own threshold, the root output gets the
      line in the logger's format. Every output receives exactly the lines
      of the sinks routed to it, in that order, then the root line if it is
      the root output. */
    method Log(lvl: Level, msg: string, args: seq<Value>, p: Printer, t: Moment,
               site: Option<CallSite>, order: seq<Sink>)
      requires Valid() && Enumerates(order, sinks.items)
      requires WritesText(lvl) ==> LineDetails.Writable(implied + args)
      modifies this, writer, SinkWriters(), Outputs(writer, lvl)
      ensures Valid() && writer == old(writer)
      ensures lvl < lowest.level ==> forall o :: o in Outputs(writer, lvl) ==> o.written == old(o.written)
      ensures lvl >= lowest.level ==>
                forall o :: o in Outputs(writer, lvl) ==>
                  o.written == old(o.written)
                    + Delivered(order, |order|, o, lvl,
                                LineText(false, p, t, site, lvl, msg, args), LineText(true, p, t, site, lvl, msg, args))
                    + (if lvl >= level.level && o == Target(writer.w, lvl)
                       then [LineText(json, p, t, site, lvl, msg, args)] else [])
    {
      if lvl >= lowest.level {
        Pass(lvl, msg, args, p, t, site, order);
      }
    }

    /** Log past the watermark: both lines are rendered, then emitted. */
    method Pass(lvl: Level, msg: string, args: seq<Value>, p: Printer, t: Moment,
                site: Option<CallSite>, order: seq<Sink>)
      requires Valid() && Enumerates(order, sinks.items)
      requires WritesText(lvl) ==> LineDetails.Writable(implied + args)
      modifies this, writer, SinkWriters(), Outputs(writer, lvl)
      ensures Valid() && writer == old(writer)
      ensures forall o :: o in Outputs(writer, lvl) ==>
                o.written == old(o.written)
                  + Delivered(order, |order|, o, lvl,
                              LineText(false, p, t, site, lvl, msg, args), LineText(true, p, t, site, lvl, msg, args))
                  + (if lvl >= level.level && o == Target(writer.w, lvl)
                     then [LineText(json, p, t, site, lvl, msg, args)] else [])
    {
      var text, jtext := Render(p, t, site, lvl, msg, args);
      ghost var line := if json then jtext else text;
      assert LineText(json, p, t, site, lvl, msg, args) == line;
      Emit(lvl, order, text, jtext);
      forall o | o in Outputs(writer, lvl)
        ensures o.written == old(o.written)
                  + Delivered(order, |order|, o, lvl,
                              LineText(false, p, t, site, lvl, msg, args), LineText(true, p, t, site, lvl, msg, args))
                  + (if lvl >= level.level && o == Target(writer.w, lvl)
                     then [LineText(json, p, t, site, lvl, msg, args)] else [])
      {
        assert o.written == old(o.written) + Delivered(order, |order|, o, lvl, text, jtext)
          + (if lvl >= level.level && o == Target(writer.w, lvl) then [line] else []);
      }
    }

    /** Log past the watermark, given the line in each format: the sink
      loop, then the root output. */
    method Emit(lvl: Level, order: seq<Sink>, text: string, jtext: string)
      requires Valid() && Enumerates(order, sinks.items)
      modifies this, writer, SinkWriters(), Outputs(writer, lvl)
      ensures Valid() && writer == old(writer)
      ensures forall o :: o in Outputs(writer, lvl) ==>
                o.written == old(o.written) + Delivered(order, |order|, o, lvl, text, jtext)
                  + (if lvl >= level.level && o == Target(writer.w, lvl) then [if json then jtext else text] else [])
    {
      var line := if json then jtext else text;
      ghost var outs := Outputs(writer, lvl);
      ghost var before := map o | o in outs :: o.written;
      FanOut(lvl, order, text, jtext);
      ghost var mid := map o | o in outs :: o.written;
      WriteRoot(lvl, line);
      forall o | o in outs
        ensures o.written == before[o] + Delivered(order, |order|, o, lvl, text, jtext)
                  + (if lvl >= level.level && o == Target(writer.w, lvl) then [line] else [])
      {
        assert mid[o] == before[o] + Delivered(order, |order|, o, lvl, text, jtext);
      }
    }

    /** The end of Log: the line goes to the root output when the call
      clears the logger's own threshold. */
    method WriteRoot(lvl: Level, line: string)
      requires Valid()
      modifies writer, Target(writer.w, lvl)
      ensures Valid()
      ensures forall o :: o in Outputs(writer, lvl) ==>
                o.written == old(o.written)
                  + (if lvl >= level.level && o == Target(writer.w, lvl) then [line] else [])
    {
      if lvl < level.level {
        return;
      }
      var _ := writer.WriteString(line);
      assert writer.b == line;
      var _ := writer.Flush(lvl);
    }

    /** Each output of `outs` holds what it held at `base` followed by the
      lines of the first `k` sinks of `order` routed to it. */
    static ghost predicate Progress(outs: set<Output>, base: map<Output, seq<string>>, order: seq<Sink>, k: nat,
                                    lvl: Level, text: string, jtext: string)
      requires k <= |order|
      reads outs
    {
      forall o :: o in outs ==> o in base && o.written == base[o] + Delivered(order, k, o, lvl, text, jtext)
    }

    /** The sink loop of Log: each sink whose threshold the call clears, in
      the order given, gets the line in its format on its output. */
    method FanOut(lvl: Level, order: seq<Sink>, text: string, jtext: string)
      requires Valid() && Enumerates(order, sinks.items)
      modifies this, SinkWriters(), Outputs(writer, lvl)
      ensures Valid() && writer == old(writer)
      ensures forall o :: o in Outputs(writer, lvl) ==> o.written == old(o.written) + Delivered(order, |order|, o, lvl, text, jtext)
    {
      ghost var outs := Outputs(writer, lvl);
      ghost var base := map o | o in outs :: o.written;
      ghost var root := writer;
      var k := 0;
      while k < |order|
        invariant 0 <= k <= |order| && writer == root && Valid()
        invariant Progress(outs, base, order, k, lvl, text, jtext)
      {
        k := Visit(lvl, order, k, text, jtext, outs, base);
      }
    }

    /** One turn of the sink loop: the sink is skipped when the call does
      not clear its threshold, and otherwise delivered to. */
    method Visit(lvl: Level, order: seq<Sink>, k: nat, text: string, jtext: string,
                 ghost outs: set<Output>, ghost base: map<Output, seq<string>>)
      returns (next: nat)
      requires Valid() && k < |order| && order[k] in sinks.items
      requires outs == Outputs(writer, lvl)
      requires Progress(outs, base, order, k, lvl, text, jtext)
      modifies this, order[k].writer, Target(order[k].writer.w, lvl)
      ensures Valid() && writer == old(writer)
      ensures next == k + 1 && Progress(outs, base, order, next, lvl, text, jtext)
    {
      next := k + 1;
      if lvl >= order[k].level {
        Hit(lvl, order, k, text, jtext, outs, base);
      }
    }

    /** A turn of the sink loop whose sink takes the call. */
    method Hit(lvl: Level, order: seq<Sink>, k: nat, text: string, jtext: string,
               ghost outs: set<Output>, ghost base: map<Output, seq<string>>)
      requires Valid() && k < |order| && order[k] in sinks.items && lvl >= order[k].level
      requires outs == Outputs(writer, lvl)
      requires Progress(outs, base, order, k, lvl, text, jtext)
      modifies this, order[k].writer, Target(order[k].writer.w, lvl)
      ensures Valid() && writer == old(writer)
      ensures Progress(outs, base, order, k + 1, lvl, text, jtext)
    {
      var s := order[k];
      var line := if s.json then jtext else text;
      ghost var dest := Target(s.writer.w, lvl);
      Deliver(s, lvl, line);
      forall o | o in outs
        ensures o in base && o.written == base[o] + Delivered(order, k + 1, o, lvl, text, jtext)
      {
        var d := Delivered(order, k, o, lvl, text, jtext);
        var x := if dest == o then [line] else [];
        assert old(o.written) == base[o] + d;
        assert o.written == old(o.written) + x;
        assert Delivered(order, k + 1, o, lvl, text, jtext) == d + x;
        assert (base[o] + d) + x == base[o] + (d + x);
      }
    }

    function IsTrace(): bool reads level { level.level == Trace }
    function IsDebug(): bool reads level { level.level <= Debug }
    function IsInfo(): bool reads level { level.level <= Info }
    function IsWarn(): bool reads level { level.level <= Warn }
    function IsError(): bool reads level { level.level <= Error }

    /** IsDebug..IsError tell whether a call at their level clears the
      logger's own threshold; IsTrace is an equality test, false when the
      threshold is below Trace. None of them looks at the watermark. */
    lemma LevelQueries()
      ensures IsDebug() == (Debug >= level.level) && IsInfo() == (Info >= level.level)
      ensures IsWarn() == (Warn >= level.level) && IsError() == (Error >= level.level)
      ensures IsTrace() ==> Trace >= level.level && IsDebug()
      ensures level.level < Trace ==> !IsTrace()
    {
    }

    /** With: an odd number of arguments panics, and so does a key that is
      not a string; otherwise a new logger whose implied pairs are the
      sorted, last-wins merge of this logger's and `args`, sharing
      everything else. */
    method With(args: seq<Value>) returns (sl: SinkLogger)
      requires Valid() && StringKeys(args)
      ensures fresh(sl) && sl.implied == Merged(implied, args) && StringKeys(sl.implied)
      ensures sl.json == json && sl.caller == caller && sl.name == name && sl.timeFormat == timeFormat
      ensures sl.writer == writer && sl.level == level && sl.lowest == lowest && sl.sinks == sinks
    {
      var merged := MergeImplied(implied, args);
      MergedStringKeys(implied, args);
      sl := new SinkLogger.Copy(json, caller, name, timeFormat, writer, level, lowest, sinks, merged);
    }

    /** Named: the name joined to this one with a dot, or alone under an
      unnamed logger. */
    method Named(n: string) returns (sl: SinkLogger)
      ensures fresh(sl) && sl.name == (if name != "" then name + "." + n else n)
      ensures sl.json == json && sl.caller == caller && sl.timeFormat == timeFormat && sl.implied == implied
      ensures sl.writer == writer && sl.level == level && sl.lowest == lowest && sl.sinks == sinks
    {
      var newName := n;
      if name != "" {
        newName := name + "." + n;
      }
      sl := new SinkLogger.Copy(json, caller, newName, timeFormat, writer, level, lowest, sinks, implied);
    }

    /** ResetNamed: the name given, whatever this one is. */
    method ResetNamed(n: string) returns (sl: SinkLogger)
      ensures fresh(sl) && sl.name == n
      ensures sl.json == json && sl.caller == caller && sl.timeFormat == timeFormat && sl.implied == implied
      ensures sl.writer == writer && sl.level == level && sl.lowest == lowest && sl.sinks == sinks
    {
      sl := new SinkLogger.Copy(json, caller, n, timeFormat, writer, level, lowest, sinks, implied);
    }

    /** SetLevel: the logger's own threshold only. The watermark stays, so
      lowering the level below it lets no more calls through. */
    method SetLevel(lvl: Level)
      requires Valid()
      modifies level
      ensures level.level == lvl && lowest.level == old(lowest.level)
      ensures Valid()
    {
      level.level := lvl;
    }
  }
}
