/** intlogger.go: the standard logger. Loggers derived from one another
    (With, Named, ResetNamed) are separate objects that share the level cell
    and, until ResetOutput replaces it, the buffered writer. */
module IntLogger {
  import opened Values
  import opened Levels
  import TextFormat
  import JsonFormat
  import opened Writers
  import opened Implied

  /** TimeFormat: the default timestamp layout. */
  const TimeFormat: string := "2006-01-02T15:04:05.000Z0700"

  /** The formatter newFormatter picks. */
  datatype LineFormatter = Text(tf: TextFormat.TextFormatter) | Json(jf: JsonFormat.JsonFormatter)

  /** The bytes a formatter returns for one call. */
  function FormatLine(fmt: LineFormatter, p: Printer, t: Moment, site: Option<CallSite>,
                      name: string, level: Level, msg: string, args: seq<Value>): string
  {
    match fmt
    case Text(tf) => TextFormat.Line(tf, p, t, site, name, level, msg, args)
    case Json(jf) => JsonFormat.Output(jf, p, t, site, name, level, msg, args)
  }

  /** The formatter interface as the logger holds it: given the clock
      reading and the caller's site of the call, the name, level, message
      and arguments, the bytes of one record. */
  type Formatter = (Moment, Option<CallSite>, string, Level, string, seq<Value>) -> string

  /** The formatter value for a choice of text or JSON. */
  function Formats(fmt: LineFormatter, p: Printer): Formatter {
    (t: Moment, site: Option<CallSite>, name: string, level: Level, msg: string, args: seq<Value>) =>
      FormatLine(fmt, p, t, site, name, level, msg, args)
  }

  /** LoggerOptions.Exclude: told the level, message and call arguments,
      answers whether to drop the call. */
  type Excluder = (Level, string, seq<Value>) -> bool

  /** The LoggerOptions fields newLogger reads. `timeFormat` and
      `callerOffset` are what the options' timeFormat() and callerOffset()
      helpers report. */
  datatype LoggerOptions = LoggerOptions(
    name: string,
    level: Level,
    output: Option<Destination>,
    jsonFormat: bool,
    color: ColorOption,
    exclude: Option<Excluder>,
    timeFormat: string,
    callerOffset: int)

  /** newFormatter */
  function NewFormatter(o: LoggerOptions): (f: LineFormatter)
    ensures f.Json? <==> o.jsonFormat
  {
    if o.jsonFormat then Json(JsonFormat.JsonFormatter(o.timeFormat, o.callerOffset))
    else Text(TextFormat.TextFormatter(o.timeFormat, o.callerOffset))
  }

  /** The threshold every logger derived from one root shares. */
  class LevelCell {
    var level: Level

    constructor (level: Level)
      ensures this.level == level
    {
      this.level := level;
    }
  }

  /** The io.Writer and error of a Flushable. */
  class Flushable {
    var flushes: nat
    const failure: Option<string>

    constructor (failure: Option<string>)
      ensures flushes == 0 && this.failure == failure
    {
      flushes := 0;
      this.failure := failure;
    }

    method Flush() returns (err: Option<string>)
      modifies this
      ensures flushes == old(flushes) + 1 && err == failure
    {
      flushes := flushes + 1;
      err := failure;
    }
  }

  /** intLogger */
  class Logger {
    const formatter: Formatter
    const name: string
    var writer: Writer
    const level: LevelCell
    const implied: seq<Value>
    const exclude: Option<Excluder>

    /** Every implied key is a string and the pairs are whole, as With
      builds them. */
    predicate Valid() {
      StringKeys(implied)
    }

    /** newLogger: nil options are empty options, no level is the default
      level, no output is the default output. */
    constructor New(opts: Option<LoggerOptions>, empty: LoggerOptions, defaultOutput: Destination,
                    terminal: bool, p: Printer)
      requires empty.name == "" && empty.level == NoLevel && empty.output == None
      requires !empty.jsonFormat && empty.color == ColorOff && empty.exclude == None
      ensures Valid() && fresh(level) && fresh(writer)
      ensures var o := if opts.Some? then opts.value else empty;
              && name == o.name && implied == [] && exclude == o.exclude
              && formatter == Formats(NewFormatter(o), p)
              && level.level == (if o.level == NoLevel then DefaultLevel else o.level)
              && writer.b == "" && writer.color == EffectiveColor(o.color, terminal)
              && writer.w == (if o.output.Some? then o.output.value else defaultOutput)
    {
      var o := if opts.Some? then opts.value else empty;
      var output := if o.output.Some? then o.output.value else defaultOutput;
      var lvl := o.level;
      if lvl == NoLevel {
        lvl := DefaultLevel;
      }
      formatter := Formats(NewFormatter(o), p);
      name := o.name;
      writer := new Writer(output, o.color, terminal);
      level := new LevelCell(lvl);
      implied := [];
      exclude := o.exclude;
    }

    /** `sl := *l` with some fields replaced. */
    constructor Copy(formatter: Formatter, name: string, writer: Writer, level: LevelCell,
                     implied: seq<Value>, exclude: Option<Excluder>)
      ensures this.formatter == formatter && this.name == name && this.writer == writer
      ensures this.level == level && this.implied == implied && this.exclude == exclude
    {
      this.formatter := formatter;
      this.name := name;
      this.writer := writer;
      this.level := level;
      this.implied := implied;
      this.exclude := exclude;
    }

    /** Whether a call at `lvl` gets past the threshold. */
    predicate Clears(lvl: Level)
      reads level
    {
      lvl >= level.level
    }

    /** Whether a call is written: it clears the threshold and the exclude
      function, given only the call's own arguments, does not drop it. */
    predicate Emits(lvl: Level, msg: string, args: seq<Value>)
      reads level
    {
      Clears(lvl) && !(exclude.Some? && exclude.value(lvl, msg, args))
    }

    /** intLogger.log: a call that is emitted becomes one formatted line of
      the implied arguments followed by the call's arguments, written to the
      buffer and flushed at the call's level; any other call touches
      nothing. */
    method LogAs(callName: string, lvl: Level, msg: string, args: seq<Value>,
                 t: Moment, site: Option<CallSite>)
      requires Emits(lvl, msg, args) && writer.color != ColorOff ==> lvl in LevelToColor
      modifies writer, Target(writer.w, lvl)
      ensures !Emits(lvl, msg, args) ==> unchanged(writer, Target(writer.w, lvl))
      ensures Emits(lvl, msg, args) ==>
                && writer.b == ""
                && Target(writer.w, lvl).written == old(Target(writer.w, lvl).written) +
                     [Shown(writer.color, lvl, old(writer.b) + formatter(t, site, callName, lvl, msg, implied + args))]
    {
      if lvl < level.level {
        return;
      }
      if exclude.Some? && exclude.value(lvl, msg, args) {
        return;
      }
      var a := implied + args;
      var raw := formatter(t, site, callName, lvl, msg, a);
      var _ := writer.Write(raw);
      var _ := writer.Flush(lvl);
    }

    /** Log: the logger's own name. */
    method Log(lvl: Level, msg: string, args: seq<Value>, t: Moment, site: Option<CallSite>)
      requires Emits(lvl, msg, args) && writer.color != ColorOff ==> lvl in LevelToColor
      modifies writer, Target(writer.w, lvl)
      ensures !Emits(lvl, msg, args) ==> unchanged(writer, Target(writer.w, lvl))
      ensures Emits(lvl, msg, args) ==>
                && writer.b == ""
                && Target(writer.w, lvl).written == old(Target(writer.w, lvl).written) +
                     [Shown(writer.color, lvl, old(writer.b) + formatter(t, site, name, lvl, msg, implied + args))]
    {
      LogAs(name, lvl, msg, args, t, site);
    }

    /** Accept (SinkAdapter): the caller's name instead of the logger's. */
    method Accept(callName: string, lvl: Level, msg: string, args: seq<Value>,
                  t: Moment, site: Option<CallSite>)
      requires Emits(lvl, msg, args) && writer.color != ColorOff ==> lvl in LevelToColor
      modifies writer, Target(writer.w, lvl)
      ensures !Emits(lvl, msg, args) ==> unchanged(writer, Target(writer.w, lvl))
      ensures Emits(lvl, msg, args) ==>
                && writer.b == ""
                && Target(writer.w, lvl).written == old(Target(writer.w, lvl).written) +
                     [Shown(writer.color, lvl, old(writer.b) + formatter(t, site, callName, lvl, msg, implied + args))]
    {
      LogAs(callName, lvl, msg, args, t, site);
    }

    function IsTrace(): bool reads level { level.level == Trace }
    function IsDebug(): bool reads level { level.level <= Debug }
    function IsInfo(): bool reads level { level.level <= Info }
    function IsWarn(): bool reads level { level.level <= Warn }
    function IsError(): bool reads level { level.level <= Error }

    /** IsDebug..IsError tell exactly whether a call at their level clears
      the threshold, and each implies the next. IsTrace is an equality test:
      it implies that Trace calls clear the threshold, but with the
      threshold below Trace (NoLevel) they clear it while IsTrace is
      false. */
    lemma LevelQueries()
      ensures IsDebug() == Clears(Debug) && IsInfo() == Clears(Info)
      ensures IsWarn() == Clears(Warn) && IsError() == Clears(Error)
      ensures IsTrace() ==> Clears(Trace) && IsDebug()
      ensures IsDebug() ==> IsInfo()
      ensures IsInfo() ==> IsWarn()
      ensures IsWarn() ==> IsError()
      ensures level.level < Trace ==> Clears(Trace) && !IsTrace()
    {
    }

    /** With: a new logger whose implied arguments are the merge of this
      logger's and `args` (sorted by key, a later value replacing an
      earlier one, a dangling value under MissingKey unless nil); every
      other field is shared, and this logger is left as it was. */
    method With(args: seq<Value>) returns (sl: Logger)
      requires Valid()
      requires StringKeys(if |args| % 2 != 0 then args[..|args| - 1] else args)
      ensures fresh(sl) && sl.Valid()
      ensures sl.implied == WithImplied(implied, args)
      ensures sl.formatter == formatter && sl.name == name && sl.writer == writer
      ensures sl.level == level && sl.exclude == exclude
    {
      var extra := Nil;
      var pairs := args;
      if |args| % 2 != 0 {
        extra := args[|args| - 1];
        pairs := args[..|args| - 1];
      }
      var merged := MergeImplied(implied, pairs);
      MergedStringKeys(implied, pairs);
      if extra != Nil {
        StringKeysAppend(merged, MissingKey, extra);
        merged := merged + [Str(MissingKey), extra];
      }
      sl := new Logger.Copy(formatter, name, writer, level, merged, exclude);
    }

    /** Named: the name joined to this one with a dot, or the name alone
      under an unnamed logger. */
    method Named(n: string) returns (sl: Logger)
      ensures fresh(sl)
      ensures sl.name == (if name != "" then name + "." + n else n)
      ensures sl.formatter == formatter && sl.writer == writer && sl.level == level
      ensures sl.implied == implied && sl.exclude == exclude
    {
      var newName := n;
      if name != "" {
        newName := name + "." + n;
      }
      sl := new Logger.Copy(formatter, newName, writer, level, implied, exclude);
    }

    /** ResetNamed: the name given, whatever this one is. */
    method ResetNamed(n: string) returns (sl: Logger)
      ensures fresh(sl) && sl.name == n
      ensures sl.formatter == formatter && sl.writer == writer && sl.level == level
      ensures sl.implied == implied && sl.exclude == exclude
    {
      sl := new Logger.Copy(formatter, n, writer, level, implied, exclude);
    }

    /** ResetOutput: a nil output is refused and nothing changes; otherwise
      a fresh writer (empty buffer) on the new output replaces this
      logger's writer. */
    method ResetOutput(opts: LoggerOptions, terminal: bool) returns (err: Option<string>)
      modifies this
      ensures opts.output.None? ==> err == Some("given output is nil") && writer == old(writer)
      ensures opts.output.Some? ==>
                && err == None && fresh(writer) && writer.b == ""
                && writer.w == opts.output.value && writer.color == EffectiveColor(opts.color, terminal)
    {
      if opts.output.None? {
        return Some("given output is nil");
      }
      err := ResetWriter(opts, terminal);
    }

    /** ResetOutputWithFlush: a nil output or a nil flushable is refused
      before anything is flushed; a failed flush is reported and the writer
      stays; otherwise the writer is replaced as in ResetOutput. */
    method ResetOutputWithFlush(opts: LoggerOptions, flushable: Option<Flushable>, terminal: bool)
      returns (err: Option<string>)
      modifies this, if flushable.Some? then {flushable.value} else {}
      ensures opts.output.None? ==> err == Some("given output is nil") && writer == old(writer)
      ensures opts.output.None? && flushable.Some? ==> flushable.value.flushes == old(flushable.value.flushes)
      ensures opts.output.Some? && flushable.None? ==> err == Some("flushable is nil") && writer == old(writer)
      ensures opts.output.Some? && flushable.Some? ==> flushable.value.flushes == old(flushable.value.flushes) + 1
      ensures opts.output.Some? && flushable.Some? && flushable.value.failure.Some? ==>
                err == flushable.value.failure && writer == old(writer)
      ensures opts.output.Some? && flushable.Some? && flushable.value.failure.None? ==>
                && err == None && fresh(writer) && writer.b == ""
                && writer.w == opts.output.value && writer.color == EffectiveColor(opts.color, terminal)
    {
      if opts.output.None? {
        return Some("given output is nil");
      }
      if flushable.None? {
        return Some("flushable is nil");
      }
      var ferr := flushable.value.Flush();
      if ferr.Some? {
        return ferr;
      }
      err := ResetWriter(opts, terminal);
    }

    /** resetOutput */
    method ResetWriter(opts: LoggerOptions, terminal: bool) returns (err: Option<string>)
      requires opts.output.Some?
      modifies this
      ensures err == None && fresh(writer) && writer.b == ""
      ensures writer.w == opts.output.value && writer.color == EffectiveColor(opts.color, terminal)
    {
      writer := new Writer(opts.output.value, opts.color, terminal);
      err := None;
    }

    /** SetLevel: stores into the shared cell, so every logger derived from
      the same root sees the new threshold. */
    method SetLevel(lvl: Level)
      modifies level
      ensures level.level == lvl
    {
      level.level := lvl;
    }
  }
}
