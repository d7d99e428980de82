/** int.go: an older logger of a separate `package log` kept beside the
    current one. Its logger is a plain struct: With and Named copy it with
    one field replaced, and only the buffered writer, which every copy
    shares, changes. Its text line pads a dangling value with "<unknown>",
    renders every value with "%v", and tags Info and Warn as "[INFO ]" and
    "[WARN ]"; its JSON record leaves the implied arguments out. The
    package's own Level declarations are not part of this model: its levels
    are taken to be those of `Levels`. */
module LegacyLog {
  import opened GoStrings
  import opened Values
  import opened Levels
  import opened Writers
  import TextFormat
  import LineDetails

  /** TimeFormat of int.go. */
  const TimeFormat: string := "2006-01-02T15:04:05.000Z0700"

  /** The value a dangling argument is paired with. */
  const Unknown: string := "<unknown>"

  /** _levelToBracket of int.go. */
  const LevelToBracket: map<Level, string> :=
    map[Debug := "[DEBUG]", Trace := "[TRACE]", Info := "[INFO ]", Warn := "[WARN ]", Error := "[ERROR]"]

  /** The tag of a level: its bracket, or "[UNKN ]" for a level with none.
      Every tag is seven characters between brackets. */
  function Bracket(level: Level): (r: string)
    ensures |r| == 7 && r[0] == '[' && r[6] == ']'
    ensures (level in LevelToBracket) == IsMessageLevel(level)
    ensures !IsMessageLevel(level) <==> r == "[UNKN ]"
  {
    if level in LevelToBracket then LevelToBracket[level] else "[UNKN ]"
  }

  // ---- the buffered writer ----

  /** bufio.Writer: bytes gather in `buf` until Flush hands them to `out`. */
  class Buffered {
    var buf: string
    const out: Output

    /** bufio.NewWriter */
    constructor (out: Output)
      ensures buf == "" && this.out == out
    {
      buf := "";
      this.out := out;
    }

    /** WriteString: the output is not touched. */
    method WriteString(s: string)
      modifies this
      ensures buf == old(buf) + s
    {
      buf := buf + s;
    }

    /** WriteByte */
    method WriteByte(c: char)
      modifies this
      ensures buf == old(buf) + [c]
    {
      buf := buf + [c];
    }

    /** Flush: a non-empty buffer goes to the output in one write; an empty
      one writes nothing. The buffer is empty afterwards. */
    method Flush()
      modifies this, out
      ensures buf == ""
      ensures out.written == old(out.written) + Flushed(old(buf))
    {
      if buf != "" {
        var _ := out.Write(buf);
      }
      buf := "";
    }
  }

  /** The writes a flush of `s` makes. */
  function Flushed(s: string): seq<string> {
    if s == "" then [] else [s]
  }

  // ---- the text line ----

  /** The arguments after the odd-length repair. */
  function Padded(args: seq<Value>): (r: seq<Value>)
    ensures |r| % 2 == 0 && |r| >= |args| && r[..|args|] == args
    ensures |args| % 2 == 1 ==> r[|args|] == Str(Unknown)
  {
    if |args| % 2 != 0 then args + [Str(Unknown)] else args
  }

  /** One pair as written: " key=value", the key through "%s", the value
      through "%v" and quoted when that holds white space. */
  function PairText(p: Printer, k: Value, v: Value): string {
    var val := PercentV(v);
    " " + KeyText(p, k) + "=" + QuoteIf(HasQuoteSpace(val), val)
  }

  function PairFn(p: Printer): (Value, Value) -> string {
    (k: Value, v: Value) => PairText(p, k, v)
  }

  /** The first `n` pairs, one after the other. */
  function PairsText(p: Printer, pairs: seq<Value>, n: nat): string
    requires 2 * n <= |pairs|
  {
    LineDetails.Joined(PairFn(p), pairs, n)
  }

  /** Everything before the arguments: the time stamp, the tag, the caller
      (when reported and found), a space, the name and the message. */
  function Lead(t: Moment, caller: bool, name: string, site: Option<CallSite>, level: Level, msg: string): string {
    t.format(TimeFormat) + " " + Bracket(level) + LineDetails.CallerText(caller, site)
      + " " + LineDetails.NameText(name) + msg
  }

  /** ':' and the pairs when there are arguments. */
  function Body(p: Printer, args: seq<Value>): string {
    var pairs := Padded(args);
    if |args| > 0 then ":" + PairsText(p, pairs, |pairs| / 2) else ""
  }

  /** The line log writes for all arguments `all` (implied ones first). */
  function TextLine(t: Moment, caller: bool, name: string, p: Printer, site: Option<CallSite>,
                    level: Level, msg: string, all: seq<Value>): string
  {
    Lead(t, caller, name, site, level, msg) + Body(p, all) + "\n"
  }

  // ---- the JSON record ----

  /** The first `n` pairs assigned into `m` in order, as they are, skipping
      every pair whose key is not a string. */
  function MergeRaw(m: map<string, Value>, pairs: seq<Value>, n: nat): map<string, Value>
    requires 2 * n <= |pairs|
  {
    if n == 0 then m
    else if pairs[2 * (n - 1)].Str? then MergeRaw(m, pairs, n - 1)[pairs[2 * (n - 1)].s := pairs[2 * (n - 1) + 1]]
    else MergeRaw(m, pairs, n - 1)
  }

  /** The reserved entries: message, time stamp, level, the module of a
      named logger and the untrimmed caller. */
  function Entry(t: Moment, caller: bool, name: string, site: Option<CallSite>, level: Level, msg: string): map<string, Value> {
    LineDetails.Entry(LineDetails.Details(t, TimeFormat, name, caller, []), site, level, msg)
  }

  /** The map logJson encodes: the reserved entries, then the call's own
      pairs (the implied ones are not looked at). */
  function JsonVals(t: Moment, caller: bool, name: string, site: Option<CallSite>,
                    level: Level, msg: string, args: seq<Value>): map<string, Value>
  {
    var pairs := Padded(args);
    MergeRaw(Entry(t, caller, name, site, level, msg), pairs, |pairs| / 2)
  }

  // ---- the logger ----

  /** The LoggerOptions fields New reads. */
  datatype Options = Options(name: string, level: Level, output: Option<Output>, jsonFormat: bool, includeLocation: bool)

  /** intLogger: a value; copies share the writer `w`. */
  datatype Logger = Logger(json: bool, caller: bool, name: string, w: Buffered, level: Level, implied: seq<Value>)
  {
    /** Between calls the buffer is empty: Log always flushes. */
    predicate Valid()
      reads w
    {
      w.buf == ""
    }

    /** Whether a call at `lvl` gets past the threshold. */
    predicate Clears(lvl: Level) {
      lvl >= level
    }

    /** The bytes a call writes: the JSON encoding of its record, or its
      text line. An encoding error panics (Log requires it away). */
    function LineFor(p: Printer, t: Moment, site: Option<CallSite>, lvl: Level, msg: string, args: seq<Value>): string
      requires json ==> p.encode(JsonVals(t, caller, name, site, lvl, msg, args)).Encoded?
    {
      if json then p.encode(JsonVals(t, caller, name, site, lvl, msg, args)).text
      else TextLine(t, caller, name, p, site, lvl, msg, implied + args)
    }

    function IsTrace(): bool { level >= Trace }
    function IsDebug(): bool { level >= Debug }
    function IsInfo(): bool { level >= Info }
    function IsWarn(): bool { level >= Warn }
    function IsError(): bool { level >= Error }

    /** The queries as the rest of the package answers them: whether a
      call at that level is written. */
    function IsTraceFixed(): bool { level <= Trace }
    function IsDebugFixed(): bool { level <= Debug }
    function IsInfoFixed(): bool { level <= Info }
    function IsWarnFixed(): bool { level <= Warn }
    function IsErrorFixed(): bool { level <= Error }

    /** With: the implied arguments are replaced, not merged. */
    function With(args: seq<Value>): (nz: Logger)
      ensures nz.implied == args
      ensures nz.json == json && nz.caller == caller && nz.name == name && nz.w == w && nz.level == level
    {
      this.(implied := args)
    }

    /** Named: the name is extended with "." and `n` only when there is one
      already; an unnamed logger stays unnamed. */
    function Named(n: string): (nz: Logger)
      ensures nz.name == if name != "" then name + "." + n else ""
      ensures nz.json == json && nz.caller == caller && nz.w == w && nz.level == level && nz.implied == implied
    {
      if name != "" then this.(name := name + "." + n) else this
    }

    /** Named as the current logger has it: an unnamed logger takes `n`. */
    function NamedFixed(n: string): (nz: Logger)
      ensures nz.name == if name != "" then name + "." + n else n
      ensures nz.json == json && nz.caller == caller && nz.w == w && nz.level == level && nz.implied == implied
    {
      this.(name := if name != "" then name + "." + n else n)
    }

    /** As written, each query holds exactly when a call at its level is
      dropped, or the threshold is that very level: with the threshold at
      Error, IsDebug is true though Debug calls are dropped; with it at
      Trace, IsError is false though Error calls are written. */
    lemma QueriesInverted()
      ensures IsTrace() == (level == Trace || !Clears(Trace))
      ensures IsDebug() == (level == Debug || !Clears(Debug))
      ensures IsInfo() == (level == Info || !Clears(Info))
      ensures IsWarn() == (level == Warn || !Clears(Warn))
      ensures IsError() == (level == Error || !Clears(Error))
      ensures level == Error ==> IsDebug() && !Clears(Debug)
      ensures level == Trace ==> !IsError() && Clears(Error)
    {
    }

    /** The corrected queries tell exactly whether Log writes a call at
      their level, and each implies the next. */
    lemma FixedQueriesMatchLog()
      ensures IsTraceFixed() == Clears(Trace) && IsDebugFixed() == Clears(Debug)
      ensures IsInfoFixed() == Clears(Info) && IsWarnFixed() == Clears(Warn)
      ensures IsErrorFixed() == Clears(Error)
      ensures IsTraceFixed() ==> IsDebugFixed()
      ensures IsDebugFixed() ==> IsInfoFixed()
      ensures IsInfoFixed() ==> IsWarnFixed()
      ensures IsWarnFixed() ==> IsErrorFixed()
    {
    }

    /** As written, Named on an unnamed logger loses the name it is given,
      and so does every Named after it. */
    lemma NamedDropsName(n: string, m: string)
      requires name == "" && n != ""
      ensures Named(n).name == "" && Named(n).Named(m).name == ""
    {
    }

    /** Named under a named logger builds the dotted path. */
    lemma NamedTwice(a: string, b: string)
      requires name != ""
      ensures Named(a).Named(b).name == name + "." + a + "." + b
    {
    }

    /** The corrected Named always ends the name with the one given, takes
      it alone under an unnamed logger, and agrees with Named otherwise. */
    lemma NamedFixedKeepsName(n: string)
      ensures var r := NamedFixed(n).name; |r| >= |n| && r[|r| - |n|..] == n
      ensures name == "" ==> NamedFixed(n).name == n
      ensures name != "" ==> NamedFixed(n) == Named(n)
    {
    }

    /** With replaces: after two With calls only the second's arguments
      remain, and the text line of a call starts its pairs with them. */
    lemma WithReplaces(a: seq<Value>, b: seq<Value>)
      ensures With(a).With(b) == With(b)
      ensures With(a).implied + b == a + b
    {
    }

    /** The JSON record does not look at the implied arguments: With
      changes nothing a JSON logger writes. */
    lemma JsonIgnoresImplied(a: seq<Value>, p: Printer, t: Moment, site: Option<CallSite>,
                             lvl: Level, msg: string, args: seq<Value>)
      requires json && p.encode(JsonVals(t, caller, name, site, lvl, msg, args)).Encoded?
      ensures With(a).LineFor(p, t, site, lvl, msg, args) == LineFor(p, t, site, lvl, msg, args)
    {
    }
  }

  /** New: no output means standard output; the level is taken as given,
      with no default for NoLevel. */
  method New(opts: Options, stdout: Output) returns (z: Logger)
    ensures fresh(z.w) && z.Valid()
    ensures z.w.out == (if opts.output.Some? then opts.output.value else stdout)
    ensures z.json == opts.jsonFormat && z.caller == opts.includeLocation && z.name == opts.name
    ensures z.level == opts.level && z.implied == []
  {
    var output := stdout;
    if opts.output.Some? {
      output := opts.output.value;
    }
    var w := new Buffered(output);
    z := Logger(opts.jsonFormat, opts.includeLocation, opts.name, w, opts.level, []);
  }

  /** Log: a call below the threshold touches nothing; any other call puts
      its line, text or JSON, in the buffer and flushes it. */
  method Log(z: Logger, lvl: Level, msg: string, args: seq<Value>, p: Printer, t: Moment, site: Option<CallSite>)
    requires z.Valid()
    requires z.Clears(lvl) && z.json ==> p.encode(JsonVals(t, z.caller, z.name, site, lvl, msg, args)).Encoded?
    modifies z.w, z.w.out
    ensures z.Valid()
    ensures !z.Clears(lvl) ==> z.w.out.written == old(z.w.out.written)
    ensures z.Clears(lvl) ==> z.w.out.written == old(z.w.out.written) + Flushed(z.LineFor(p, t, site, lvl, msg, args))
    ensures z.Clears(lvl) && !z.json ==>
              z.w.out.written == old(z.w.out.written) + [TextLine(t, z.caller, z.name, p, site, lvl, msg, z.implied + args)]
  {
    if lvl < z.level {
      return;
    }
    if z.json {
      LogJson(z, lvl, msg, args, p, t, site);
    } else {
      LogText(z, lvl, msg, args, p, t, site);
    }
    assert z.w.buf == z.LineFor(p, t, site, lvl, msg, args);
    z.w.Flush();
  }

  /** log: the text line, piece by piece, into the buffer. */
  method LogText(z: Logger, lvl: Level, msg: string, args: seq<Value>, p: Printer, t: Moment, site: Option<CallSite>)
    modifies z.w
    ensures z.w.buf == old(z.w.buf) + TextLine(t, z.caller, z.name, p, site, lvl, msg, z.implied + args)
  {
    ghost var start := z.w.buf;
    WriteLead(z.w, z.caller, z.name, lvl, msg, t, site);
    ghost var lead := Lead(t, z.caller, z.name, site, lvl, msg);
    WriteBody(z.w, p, z.implied + args);
    ghost var body := Body(p, z.implied + args);
    ConcatAssoc(start, lead, body);
    z.w.WriteString("\n");
    ConcatAssoc(start, lead + body, "\n");
  }

  /** The time stamp, the tag, the caller, the space and the name and
      message. */
  method WriteLead(w: Buffered, caller: bool, name: string, lvl: Level, msg: string, t: Moment, site: Option<CallSite>)
    modifies w
    ensures w.buf == old(w.buf) + Lead(t, caller, name, site, lvl, msg)
  {
    ghost var start := w.buf;
    ghost var a := t.format(TimeFormat) + " " + Bracket(lvl);
    ghost var b := LineDetails.CallerText(caller, site);
    ghost var c := LineDetails.NameText(name);
    WriteStamp(w, lvl, t);
    WriteCaller(w, caller, site);
    ConcatAssoc(start, a, b);
    w.WriteString(" ");
    ConcatAssoc(start, a + b, " ");
    WriteName(w, name);
    ConcatAssoc(start, a + b + " ", c);
    w.WriteString(msg);
    ConcatAssoc(start, a + b + " " + c, msg);
  }

  /** The time stamp, a space and the tag. */
  method WriteStamp(w: Buffered, lvl: Level, t: Moment)
    modifies w
    ensures w.buf == old(w.buf) + (t.format(TimeFormat) + " " + Bracket(lvl))
  {
    ghost var start := w.buf;
    ghost var stamp := t.format(TimeFormat);
    w.WriteString(t.format(TimeFormat));
    w.WriteByte(' ');
    ConcatAssoc(start, stamp, " ");
    var tag := "[UNKN ]";
    if lvl in LevelToBracket {
      tag := LevelToBracket[lvl];
    }
    assert tag == Bracket(lvl);
    w.WriteString(tag);
    ConcatAssoc(start, stamp + " ", tag);
  }

  /** " file:line:" when the caller is reported and runtime.Caller finds
      the frame. */
  method WriteCaller(w: Buffered, caller: bool, site: Option<CallSite>)
    modifies w
    ensures w.buf == old(w.buf) + LineDetails.CallerText(caller, site)
  {
    ghost var start := w.buf;
    if caller {
      if site.Some? {
        ghost var file := TextFormat.TrimCallerPath(site.value.file);
        ghost var line := Decimal(site.value.line);
        w.WriteByte(' ');
        w.WriteString(TextFormat.TrimCallerPath(site.value.file));
        ConcatAssoc(start, " ", file);
        w.WriteByte(':');
        ConcatAssoc(start, " " + file, ":");
        w.WriteString(Decimal(site.value.line));
        ConcatAssoc(start, " " + file + ":", line);
        w.WriteByte(':');
        ConcatAssoc(start, " " + file + ":" + line, ":");
        return;
      }
    }
    AppendEmpty(start);
  }

  /** "name: " for a named logger. */
  method WriteName(w: Buffered, name: string)
    modifies w
    ensures w.buf == old(w.buf) + LineDetails.NameText(name)
  {
    ghost var start := w.buf;
    if name != "" {
      w.WriteString(name);
      w.WriteString(": ");
      return;
    }
    AppendEmpty(start);
  }

  /** The odd-length repair, ':' and the pairs, when there are arguments. */
  method WriteBody(w: Buffered, p: Printer, args: seq<Value>)
    modifies w
    ensures w.buf == old(w.buf) + Body(p, args)
  {
    ghost var start := w.buf;
    if |args| == 0 {
      AppendEmpty(start);
      return;
    }
    var all := args;
    if |all| % 2 != 0 {
      all := all + [Str(Unknown)];
    }
    assert all == Padded(args);
    w.WriteByte(':');
    WritePairs(w, p, all, |all| / 2);
    ConcatAssoc(start, ":", PairsText(p, all, |all| / 2));
  }

  /** The FOR loop of log: one formatted write per pair. */
  method WritePairs(w: Buffered, p: Printer, pairs: seq<Value>, half: nat)
    requires |pairs| == 2 * half
    modifies w
    ensures w.buf == old(w.buf) + PairsText(p, pairs, half)
  {
    ghost var start := w.buf;
    AppendEmpty(start);
    var g := 0;
    while g < half
      invariant 0 <= g <= half
      invariant w.buf == start + PairsText(p, pairs, g)
    {
      g := WritePair(w, p, pairs, g, start);
    }
  }

  /** One turn of the FOR loop: "%v" of the value, quoted when it holds
      white space, written after the key through " %s=%s%v%s". */
  method WritePair(w: Buffered, p: Printer, pairs: seq<Value>, g: nat, ghost start: string) returns (next: nat)
    requires 2 * g + 2 <= |pairs| && w.buf == start + PairsText(p, pairs, g)
    modifies w
    ensures next == g + 1 && w.buf == start + PairsText(p, pairs, next)
  {
    var piece := FormatPair(p, pairs[2 * g], pairs[2 * g + 1]);
    w.WriteString(piece);
    LineDetails.JoinedSnoc(PairFn(p), pairs, g);
    ConcatAssoc(start, PairsText(p, pairs, g), piece);
    next := g + 1;
  }

  /** The text of " %s=%s%v%s" for one pair. */
  method FormatPair(p: Printer, k: Value, v: Value) returns (piece: string)
    ensures piece == PairText(p, k, v)
  {
    var val := PercentV(v);
    var shown := val;
    if HasQuoteSpace(val) {
      shown := "\"" + val + "\"";
    }
    piece := " " + KeyText(p, k) + "=" + shown;
  }

  /** logJson: the map filled from the call's own arguments, encoded into
      the buffer. */
  method LogJson(z: Logger, lvl: Level, msg: string, args: seq<Value>, p: Printer, t: Moment, site: Option<CallSite>)
    requires p.encode(JsonVals(t, z.caller, z.name, site, lvl, msg, args)).Encoded?
    modifies z.w
    ensures z.w.buf == old(z.w.buf) + p.encode(JsonVals(t, z.caller, z.name, site, lvl, msg, args)).text
  {
    var vals := Entry(t, z.caller, z.name, site, lvl, msg);
    var pairs := args;
    if |args| > 0 {
      if |args| % 2 != 0 {
        pairs := args + [Str(Unknown)];
      }
      vals := AssignPairs(vals, pairs);
    }
    assert vals == JsonVals(t, z.caller, z.name, site, lvl, msg, args);
    var encoded := p.encode(vals);
    z.w.WriteString(encoded.text);
  }

  /** The FOR loop of logJson: every pair with a string key is assigned. */
  method AssignPairs(start: map<string, Value>, pairs: seq<Value>) returns (vals: map<string, Value>)
    requires |pairs| % 2 == 0
    ensures vals == MergeRaw(start, pairs, |pairs| / 2)
  {
    vals := start;
    var g := 0;
    while g < |pairs| / 2
      invariant 0 <= g <= |pairs| / 2
      invariant vals == MergeRaw(start, pairs, g)
    {
      var i := 2 * g;
      if pairs[i].Str? {
        vals := vals[pairs[i].s := pairs[i + 1]];
      }
      g := g + 1;
    }
  }

  // ---- properties of the text line ----

  /** int.go's tags are formatter.go's for Trace, Debug and Error; Info and
      Warn pad inside the bracket rather than after it. */
  lemma BracketsAgainstFormatter()
    ensures Bracket(Trace) == TextFormat.LevelBracket(Trace)
    ensures Bracket(Debug) == TextFormat.LevelBracket(Debug)
    ensures Bracket(Error) == TextFormat.LevelBracket(Error)
    ensures Bracket(Info) == "[INFO ]" && TextFormat.LevelBracket(Info) == "[INFO] "
    ensures Bracket(Warn) == "[WARN ]" && TextFormat.LevelBracket(Warn) == "[WARN] "
  {
  }

  /** "<unknown>" holds no white space, so it is written unquoted. */
  lemma UnknownPair(p: Printer, k: Value)
    ensures PairText(p, k, Str(Unknown)) == " " + KeyText(p, k) + "=" + Unknown
  {
    UnknownPlain();
    assert PercentV(Str(Unknown)) == Unknown;
  }

  lemma UnknownPlain()
    ensures !HasQuoteSpace(Unknown)
  {
    forall i | 0 <= i < |Unknown| ensures !IsQuoteSpace(Unknown[i]) {
      assert Unknown[i] in "<unknown>";
    }
  }

  /** A dangling last argument becomes the key of a last pair whose value
      is "<unknown>", after the pairs before it. */
  lemma DanglingPadded(p: Printer, all: seq<Value>)
    requires |all| % 2 == 1
    ensures var h := |all| / 2;
            Body(p, all) == ":" + PairsText(p, all[..2 * h], h) + (" " + KeyText(p, all[2 * h]) + "=" + Unknown)
  {
    var h := |all| / 2;
    var padded := Padded(all);
    var front := all[..2 * h];
    assert |padded| / 2 == h + 1;
    assert Body(p, all) == ":" + PairsText(p, padded, h + 1);
    LineDetails.JoinedSnoc(PairFn(p), padded, h);
    assert padded[2 * h] == all[2 * h] && padded[2 * h + 1] == Str(Unknown);
    UnknownPair(p, all[2 * h]);
    assert PairFn(p)(padded[2 * h], padded[2 * h + 1]) == " " + KeyText(p, all[2 * h]) + "=" + Unknown;
    LineDetails.JoinedPrefix(PairFn(p), padded, front, h);
    ConcatAssoc(":", PairsText(p, front, h), " " + KeyText(p, all[2 * h]) + "=" + Unknown);
  }

  /** The implied arguments are written first, as pairs of their own, and
      the call's arguments after them. */
  lemma ImpliedFirst(p: Printer, implied: seq<Value>, args: seq<Value>)
    requires |implied| % 2 == 0 && |args| % 2 == 0 && |implied| + |args| > 0
    ensures Body(p, implied + args)
         == ":" + PairsText(p, implied, |implied| / 2) + PairsText(p, args, |args| / 2)
  {
    var m, k := |implied| / 2, |args| / 2;
    var all := implied + args;
    assert Padded(all) == all && |all| / 2 == m + k;
    assert Body(p, all) == ":" + PairsText(p, all, m + k);
    LineDetails.JoinedAppend(PairFn(p), implied, m, args, k);
    assert PairsText(p, all, m + k) == PairsText(p, implied, m) + PairsText(p, args, k);
    ConcatAssoc(":", PairsText(p, implied, m), PairsText(p, args, k));
  }

  // ---- properties of the JSON record ----

  /** The last pair with a given string key decides its value, which is
      stored as it is. */
  lemma {:induction false} MergeRawLastWins(m: map<string, Value>, pairs: seq<Value>, n: nat, g: nat)
    requires 2 * n <= |pairs| && g < n && pairs[2 * g].Str?
    requires forall h :: g < h < n ==> pairs[2 * h] != pairs[2 * g]
    ensures var r := MergeRaw(m, pairs, n);
            pairs[2 * g].s in r && r[pairs[2 * g].s] == pairs[2 * g + 1]
  {
    var h := n - 1;
    if g < h {
      assert pairs[2 * h] != pairs[2 * g];
      MergeRawLastWins(m, pairs, h, g);
    }
  }

  /** Pairs whose key is not a string leave the map as it was. */
  lemma {:induction false} MergeRawSkips(m: map<string, Value>, pairs: seq<Value>, n: nat)
    requires 2 * n <= |pairs|
    requires forall g :: 0 <= g < n ==> !pairs[2 * g].Str?
    ensures MergeRaw(m, pairs, n) == m
  {
    if n > 0 {
      assert !pairs[2 * (n - 1)].Str?;
      MergeRawSkips(m, pairs, n - 1);
    }
  }

  /** A dangling string argument becomes a key whose value is
      "<unknown>". */
  lemma JsonDanglingBecomesKey(t: Moment, caller: bool, name: string, site: Option<CallSite>,
                               level: Level, msg: string, args: seq<Value>)
    requires |args| % 2 == 1 && args[|args| - 1].Str?
    ensures var m := JsonVals(t, caller, name, site, level, msg, args);
            args[|args| - 1].s in m && m[args[|args| - 1].s] == Str(Unknown)
  {
    var pairs := Padded(args);
    var last := |pairs| / 2 - 1;
    assert pairs[2 * last] == args[|args| - 1] && pairs[2 * last + 1] == Str(Unknown);
    MergeRawLastWins(Entry(t, caller, name, site, level, msg), pairs, last + 1, last);
  }

  /** With no string key among the arguments, the record holds the
      reserved entries and nothing else. */
  lemma JsonNonStringKeysSkipped(t: Moment, caller: bool, name: string, site: Option<CallSite>,
                                 level: Level, msg: string, args: seq<Value>)
    requires |args| % 2 == 0
    requires forall g :: 0 <= g < |args| / 2 ==> !args[2 * g].Str?
    ensures JsonVals(t, caller, name, site, level, msg, args) == Entry(t, caller, name, site, level, msg)
  {
    MergeRawSkips(Entry(t, caller, name, site, level, msg), args, |args| / 2);
  }
}
