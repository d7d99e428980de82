/** log.go: the older line builder of the package, lineDetails. It differs
    from formatter.go and json.go in small ways: the time stamp is always
    written, a dangling value is given the value "<unknown>" (so it becomes
    a key), every key of a written pair must be a string, Hex, Octal and
    Binary print in decimal, the stack trace ends the line without a
    newline, and the JSON map leaves out pairs whose key is not a string.
    Its level tags, trimCallerPath and renderSlice are the same text as
    formatter.go's, so the TextFormat definitions serve for them. */
module LineDetails {
  import opened GoStrings
  import opened Values
  import opened Levels
  import TextFormat
  import JsonFormat

  /** lineDetails: the moment of the call, its layout, the logger name,
      whether to report the caller, and the implied arguments. */
  datatype Details = Details(t: Moment, tfmt: string, name: string, caller: bool, implied: seq<Value>)

  /** The value a dangling argument is paired with. */
  const Unknown: string := "<unknown>"

  // ---- the dangling argument ----

  /** The arguments after the odd-length repair, and the stack trace taken
      from them: a trailing stack trace is removed and kept; any other
      dangling value is followed by "<unknown>". */
  function Split(args: seq<Value>): (r: (seq<Value>, string))
    ensures |r.0| % 2 == 0
  {
    var n := |args|;
    if n % 2 == 0 then (args, "")
    else if args[n - 1].Stacktrace? then (args[..n - 1], args[n - 1].trace)
    else (args + [Str(Unknown)], "")
  }

  // ---- values and pairs ----

  /** The type switch of build on a value that is not a stack trace. It has
      no case for Hex, Octal or Binary, which therefore print as "%v" does. */
  function ValueText(p: Printer, v: Value): TextFormat.Rendered
    requires !v.Stacktrace?
  {
    match v
    case Str(s) => TextFormat.Rendered(s, false)
    case Int(i) => TextFormat.Rendered(Decimal(i), false)
    case Uint(u) => TextFormat.Rendered(Digits(u, 10), false)
    case Format(template, fargs) => TextFormat.Rendered(p.sprintf(template, fargs), false)
    case Slice(elems) => TextFormat.Rendered(TextFormat.RenderSlice(elems), true)
    case _ => TextFormat.Rendered(PercentV(v), false)
  }

  /** The two builders agree on every value except the radix wrappers, which
      log.go writes as plain decimal numbers without a prefix. */
  lemma ValueTextAgrees(p: Printer, v: Value)
    requires !v.Stacktrace?
    ensures !(v.Hex? || v.Octal? || v.Binary?) ==> ValueText(p, v) == TextFormat.ValueText(p, v)
    ensures v.Hex? ==> ValueText(p, v) == TextFormat.Rendered(Decimal(v.h), false)
    ensures v.Octal? ==> ValueText(p, v) == TextFormat.Rendered(Decimal(v.o), false)
    ensures v.Binary? ==> ValueText(p, v) == TextFormat.Rendered(Decimal(v.b), false)
  {
  }

  /** The pair numbered `g` can be written: its value is a stack trace
      (skipped before the key is looked at) or its key is a string (any
      other key makes the type assertion panic). */
  predicate KeyOk(pairs: seq<Value>, g: nat)
    requires 2 * g + 1 < |pairs|
  {
    pairs[2 * g + 1].Stacktrace? || pairs[2 * g].Str?
  }

  /** The first `n` pairs can be written. */
  predicate KeysOk(pairs: seq<Value>, n: nat)
    requires 2 * n <= |pairs|
  {
    forall g :: 0 <= g < n ==> KeyOk(pairs, g)
  }

  /** build does not panic on these arguments. */
  predicate Writable(args: seq<Value>) {
    var pairs := Split(args).0;
    KeysOk(pairs, |pairs| / 2)
  }

  /** The text of a string key. build never meets any other key: the type
      assertion would panic first (see Writable). */
  function KeyName(k: Value): string {
    if k.Str? then k.s else ""
  }

  /** One pair as written: " key=value", the value quoted when it holds
      white space and is not a rendered slice; a stack-trace value writes
      nothing. */
  function PairText(p: Printer, k: Value, v: Value): string
  {
    if v.Stacktrace? then ""
    else
      var rv := ValueText(p, v);
      " " + KeyName(k) + "=" + QuoteIf(!rv.raw && HasQuoteSpace(rv.val), rv.val)
  }

  /** PairText as a function value. */
  function PairFn(p: Printer): (Value, Value) -> string {
    (k: Value, v: Value) => PairText(p, k, v)
  }

  /** The texts `f` gives the first `n` pairs, one after the other. */
  function Joined(f: (Value, Value) -> string, pairs: seq<Value>, n: nat): string
    requires 2 * n <= |pairs|
  {
    if n == 0 then ""
    else Joined(f, pairs, n - 1) + f(pairs[2 * (n - 1)], pairs[2 * (n - 1) + 1])
  }

  /** The text of the first `n` pairs, in order. */
  function PairsText(p: Printer, pairs: seq<Value>, n: nat): string
    requires 2 * n <= |pairs|
  {
    Joined(PairFn(p), pairs, n)
  }

  /** The stack trace in force after the first `n` pairs: the last
      stack-trace value among them, or `init`. */
  function FinalTrace(pairs: seq<Value>, n: nat, init: string): string
    requires 2 * n <= |pairs|
  {
    if n == 0 then init
    else if pairs[2 * (n - 1) + 1].Stacktrace? then pairs[2 * (n - 1) + 1].trace
    else FinalTrace(pairs, n - 1, init)
  }

  // ---- the text line ----

  /** " file:line:", written only when caller reporting is on and the frame
      was found. */
  function CallerText(caller: bool, site: Option<CallSite>): string {
    if caller && site.Some? then
      " " + TextFormat.TrimCallerPath(site.value.file) + ":" + Decimal(site.value.line) + ":"
    else ""
  }

  /** "name: " for a named logger. */
  function NameText(name: string): string {
    if name != "" then name + ": " else ""
  }

  /** Everything before the arguments: the time stamp, always, then the
      tag, the caller, the name and the message. */
  function Lead(d: Details, site: Option<CallSite>, level: Level, msg: string): string {
    d.t.format(d.tfmt) + " " + TextFormat.LevelBracket(level) + CallerText(d.caller, site) + " " + NameText(d.name) + msg
  }

  /** ':' and the pairs when there are arguments. */
  function Body(p: Printer, args: seq<Value>): string
    requires Writable(args)
  {
    var pairs := Split(args).0;
    if |args| > 0 then ":" + PairsText(p, pairs, |pairs| / 2) else ""
  }

  /** The stack trace in force once all arguments are seen. */
  function Trace(args: seq<Value>): string {
    var pairs := Split(args).0;
    FinalTrace(pairs, |pairs| / 2, Split(args).1)
  }

  /** What follows the message: the pairs, the newline, and the stack trace
      with no newline after it. */
  function ArgsText(p: Printer, args: seq<Value>): string
    requires Writable(args)
  {
    Body(p, args) + "\n" + Trace(args)
  }

  /** The line build returns. `site` is what runtime.Caller reports. */
  function Line(d: Details, p: Printer, site: Option<CallSite>, level: Level, msg: string, args: seq<Value>): string
    requires Writable(d.implied + args)
  {
    Lead(d, site, level, msg) + ArgsText(p, d.implied + args)
  }

  /** lineDetails.build: writes the line piece by piece into a buffer. */
  method Build(d: Details, p: Printer, site: Option<CallSite>, level: Level, msg: string, args: seq<Value>)
    returns (line: string)
    requires Writable(d.implied + args)
    ensures line == Line(d, p, site, level, msg, args)
  {
    line := d.t.format(d.tfmt) + " ";
    if level in TextFormat.LevelToBracket {
      line := line + TextFormat.LevelToBracket[level];
    } else {
      line := line + "[?????]";
    }
    ghost var head := line;
    if d.caller {
      if site.Some? {
        line := line + (" " + TextFormat.TrimCallerPath(site.value.file) + ":" + Decimal(site.value.line) + ":");
      }
    }
    assert line == head + CallerText(d.caller, site) by {
      AppendEmpty(head);
    }
    line := line + " ";
    head := line;
    if d.name != "" {
      line := line + (d.name + ": ");
    }
    assert line == head + NameText(d.name) by {
      AppendEmpty(head);
    }
    line := line + msg;
    assert line == Lead(d, site, level, msg);
    line := WriteArgs(p, d.implied + args, line);
  }

  /** The second half of build: the odd-length repair, the pairs, the
      newline and the stack trace, appended to `start`. */
  method WriteArgs(p: Printer, args: seq<Value>, start: string) returns (buf: string)
    requires Writable(args)
    ensures buf == start + ArgsText(p, args)
  {
    buf := start;
    var stacktrace := "";
    var pairs := args;
    if |args| > 0 {
      if |args| % 2 != 0 {
        if args[|args| - 1].Stacktrace? {
          pairs := args[..|args| - 1];
          stacktrace := args[|args| - 1].trace;
        } else {
          pairs := args + [Str(Unknown)];
        }
      }
      assert pairs == Split(args).0 && stacktrace == Split(args).1;
      buf := buf + ":";
      buf, stacktrace := WritePairs(p, pairs, |pairs| / 2, stacktrace, buf);
      ConcatAssoc(start, ":", PairsText(p, pairs, |pairs| / 2));
    } else {
      AppendEmpty(start);
    }
    assert buf == start + Body(p, args);
    assert stacktrace == Trace(args);
    buf := buf + "\n";
    ConcatAssoc(start, Body(p, args), "\n");
    ghost var before := buf;
    if stacktrace != "" {
      buf := buf + stacktrace;
    }
    assert buf == before + stacktrace by {
      AppendEmpty(before);
    }
    ConcatAssoc(start, Body(p, args) + "\n", stacktrace);
  }

  /** The FOR loop of build: appends each pair to `start` and follows the
      stack-trace values among them. */
  method WritePairs(p: Printer, pairs: seq<Value>, half: nat, init: string, start: string)
    returns (buf: string, stacktrace: string)
    requires |pairs| == 2 * half && KeysOk(pairs, half)
    ensures buf == start + PairsText(p, pairs, half)
    ensures stacktrace == FinalTrace(pairs, half, init)
  {
    buf := start;
    stacktrace := init;
    AppendEmpty(start);
    var g := 0;
    while g < half
      invariant 0 <= g <= half
      invariant buf == start + PairsText(p, pairs, g)
      invariant stacktrace == FinalTrace(pairs, g, init)
    {
      buf, stacktrace := PairStep(p, pairs, g, 2 * g, init, start, buf, stacktrace);
      g := g + 1;
    }
  }

  /** One turn of the FOR loop: a stack-trace value is set aside, any other
      value is written with its key. */
  method PairStep(p: Printer, pairs: seq<Value>, ghost g: nat, i: nat, init: string, start: string,
                  buf: string, stacktrace: string)
    returns (buf': string, stacktrace': string)
    requires i == 2 * g && i + 2 <= |pairs| && KeyOk(pairs, g)
    requires buf == start + PairsText(p, pairs, g)
    requires stacktrace == FinalTrace(pairs, g, init)
    ensures buf' == start + PairsText(p, pairs, g + 1)
    ensures stacktrace' == FinalTrace(pairs, g + 1, init)
  {
    var piece := "";
    stacktrace' := stacktrace;
    if pairs[i + 1].Stacktrace? {
      stacktrace' := pairs[i + 1].trace;
    } else {
      piece := WritePair(p, pairs[i], pairs[i + 1]);
    }
    assert piece == PairText(p, pairs[i], pairs[i + 1]);
    buf' := buf + piece;
    Extend(p, pairs, g, start, buf', piece);
    FinalTraceSnoc(pairs, g, init);
  }

  /** One turn of the FOR loop for a value that is not a stack trace: the
      key (which must be a string), '=' and the value, quoted when it holds
      white space and is not a rendered slice. */
  method WritePair(p: Printer, k: Value, v: Value) returns (piece: string)
    requires k.Str? && !v.Stacktrace?
    ensures piece == PairText(p, k, v)
  {
    var rv := ValueText(p, v);
    var val;
    if !rv.raw && HasQuoteSpace(rv.val) {
      val := "\"" + rv.val + "\"";
    } else {
      val := rv.val;
    }
    piece := " " + k.s + "=" + val;
  }

  /** Appending the text of pair `g` to the text of the first `g` pairs
      gives the text of the first g + 1. */
  lemma Extend(p: Printer, pairs: seq<Value>, g: nat, start: string, buf: string, piece: string)
    requires 2 * g + 2 <= |pairs| && piece == PairText(p, pairs[2 * g], pairs[2 * g + 1])
    requires buf == start + PairsText(p, pairs, g) + piece
    ensures buf == start + PairsText(p, pairs, g + 1)
  {
    PairsTextSnoc(p, pairs, g);
    ConcatAssoc(start, PairsText(p, pairs, g), piece);
  }

  /** One more pair replaces the stack trace exactly when its value is one. */
  lemma FinalTraceSnoc(pairs: seq<Value>, g: nat, init: string)
    requires 2 * g + 2 <= |pairs|
    ensures FinalTrace(pairs, g + 1, init)
         == if pairs[2 * g + 1].Stacktrace? then pairs[2 * g + 1].trace else FinalTrace(pairs, g, init)
  {
  }

  /** One more pair extends the text by that pair's text. */
  lemma PairsTextSnoc(p: Printer, pairs: seq<Value>, g: nat)
    requires 2 * g + 2 <= |pairs|
    ensures PairsText(p, pairs, g + 1) == PairsText(p, pairs, g) + PairText(p, pairs[2 * g], pairs[2 * g + 1])
  {
    assert PairFn(p)(pairs[2 * g], pairs[2 * g + 1]) == PairText(p, pairs[2 * g], pairs[2 * g + 1]);
  }

  // ---- properties of the text line ----

  /** Every line opens with the formatted time and a space, whatever the
      layout: build has no way to leave the time stamp out. */
  lemma LineStartsWithTime(d: Details, p: Printer, site: Option<CallSite>, level: Level, msg: string, args: seq<Value>)
    requires Writable(d.implied + args)
    ensures HasPrefix(Line(d, p, site, level, msg, args), d.t.format(d.tfmt) + " ")
  {
    var stamp := d.t.format(d.tfmt) + " ";
    assert HasPrefix(stamp, stamp);
    var s1 := stamp + TextFormat.LevelBracket(level);
    PrefixAppend(stamp, TextFormat.LevelBracket(level), stamp);
    var s2 := s1 + CallerText(d.caller, site);
    PrefixAppend(s1, CallerText(d.caller, site), stamp);
    PrefixAppend(s2, " ", stamp);
    PrefixAppend(s2 + " ", NameText(d.name), stamp);
    PrefixAppend(s2 + " " + NameText(d.name), msg, stamp);
    PrefixAppend(Lead(d, site, level, msg), ArgsText(p, d.implied + args), stamp);
  }

  /** The text of the first `n` pairs depends only on those pairs. */
  lemma {:induction false} JoinedPrefix(f: (Value, Value) -> string, a: seq<Value>, b: seq<Value>, n: nat)
    requires 2 * n <= |a| && 2 * n <= |b|
    requires forall i :: 0 <= i < 2 * n ==> a[i] == b[i]
    ensures Joined(f, a, n) == Joined(f, b, n)
  {
    if n > 0 {
      var g := n - 1;
      assert a[2 * g] == b[2 * g] && a[2 * g + 1] == b[2 * g + 1];
      JoinedPrefix(f, a, b, g);
    }
  }

  /** Pairs are written independently of one another: the `m` pairs of `a`
      followed by the first `k` pairs of `b` read as the `m` pairs, then the
      `k` pairs. */
  lemma {:induction false} JoinedAppend(f: (Value, Value) -> string, a: seq<Value>, m: nat, b: seq<Value>, k: nat)
    requires |a| == 2 * m && 2 * k <= |b|
    ensures Joined(f, a + b, m + k) == Joined(f, a, m) + Joined(f, b, k)
  {
    if k == 0 {
      JoinedFront(f, a, m, b);
    } else {
      var j := k - 1;
      JoinedAppend(f, a, m, b, j);
      JoinedSnoc(f, a + b, m + j);
      JoinedSnoc(f, b, j);
      AppendIndex(a, b, 2 * j);
      AppendIndex(a, b, 2 * j + 1);
      ConcatAssoc(Joined(f, a, m), Joined(f, b, j), f(b[2 * j], b[2 * j + 1]));
    }
  }

  /** One more pair adds its own text at the end. */
  lemma JoinedSnoc(f: (Value, Value) -> string, s: seq<Value>, j: nat)
    requires 2 * j + 2 <= |s|
    ensures Joined(f, s, j + 1) == Joined(f, s, j) + f(s[2 * j], s[2 * j + 1])
  {
  }

  /** Pairs after the first `m` do not change the text of the first `m`. */
  lemma JoinedFront(f: (Value, Value) -> string, a: seq<Value>, m: nat, b: seq<Value>)
    requires |a| == 2 * m
    ensures Joined(f, a + b, m) == Joined(f, a, m)
  {
    JoinedPrefix(f, a + b, a, m);
  }

  lemma PairsTextAppend(p: Printer, a: seq<Value>, m: nat, b: seq<Value>, k: nat)
    requires |a| == 2 * m && 2 * k <= |b|
    ensures PairsText(p, a + b, m + k) == PairsText(p, a, m) + PairsText(p, b, k)
  {
    JoinedAppend(PairFn(p), a, m, b, k);
  }

  lemma AppendIndex(a: seq<Value>, b: seq<Value>, i: nat)
    requires i < |b|
    ensures (a + b)[|a| + i] == b[i]
  {
  }

  /** The implied arguments are written first, as pairs of their own, and
      the call's arguments after them. */
  lemma ImpliedFirst(d: Details, p: Printer, args: seq<Value>, m: nat, k: nat)
    requires |d.implied| == 2 * m && |args| == 2 * k && m + k > 0
    requires Writable(d.implied + args)
    ensures Body(p, d.implied + args) == ":" + PairsText(p, d.implied, m) + PairsText(p, args, k)
  {
    var all := d.implied + args;
    assert |all| == 2 * (m + k);
    assert Split(all).0 == all;
    PairsTextAppend(p, d.implied, m, args, k);
    ConcatAssoc(":", PairsText(p, d.implied, m), PairsText(p, args, k));
  }

  /** "<unknown>" holds no white space, so it is written unquoted. */
  lemma UnknownPlain(p: Printer, k: string)
    ensures PairText(p, Str(k), Str(Unknown)) == " " + k + "=" + Unknown
  {
    forall i | 0 <= i < |Unknown| ensures !IsQuoteSpace(Unknown[i]) {
      assert Unknown[i] in "<unknown>";
    }
  }

  /** A dangling value that is not a stack trace becomes the key of the last
      pair, with "<unknown>" as its value. */
  lemma DanglingValueBecomesKey(p: Printer, args: seq<Value>, m: nat)
    requires |args| == 2 * m + 1 && !args[2 * m].Stacktrace?
    requires Writable(args)
    ensures args[2 * m].Str?
    ensures PairsText(p, Split(args).0, m + 1)
         == PairsText(p, args[..2 * m], m) + (" " + args[2 * m].s + "=" + Unknown)
  {
    DanglingKey(args, m);
    DanglingText(p, args, m);
  }

  /** Writable demands a string key for the repaired last pair, whose value
      "<unknown>" is not a stack trace. */
  lemma DanglingKey(args: seq<Value>, m: nat)
    requires |args| == 2 * m + 1 && !args[2 * m].Stacktrace?
    requires Writable(args)
    ensures args[2 * m].Str?
  {
    var pairs := Split(args).0;
    DanglingSplit(args, m);
    assert |pairs| == 2 * (m + 1);
    assert KeyOk(pairs, m);
  }

  lemma DanglingText(p: Printer, args: seq<Value>, m: nat)
    requires |args| == 2 * m + 1 && args[2 * m].Str?
    ensures PairsText(p, Split(args).0, m + 1)
         == PairsText(p, args[..2 * m], m) + (" " + args[2 * m].s + "=" + Unknown)
  {
    var front := args[..2 * m];
    var last := [args[2 * m], Str(Unknown)];
    DanglingSplit(args, m);
    PairsTextAppend(p, front, m, last, 1);
    PairsTextSnoc(p, last, 0);
    var piece := PairText(p, args[2 * m], Str(Unknown));
    assert "" + piece == piece;
    UnknownPlain(p, args[2 * m].s);
  }

  /** The odd-length repair of a list whose dangling value is not a stack
      trace: the first `m` pairs, then the dangling value and "<unknown>". */
  lemma DanglingSplit(args: seq<Value>, m: nat)
    requires |args| == 2 * m + 1 && !args[2 * m].Stacktrace?
    ensures Split(args).0 == args[..2 * m] + [args[2 * m], Str(Unknown)]
  {
    assert args == args[..2 * m] + [args[2 * m]];
  }

  /** No value position among the first `n` pairs holds a stack trace. */
  predicate TraceFree(pairs: seq<Value>, n: nat)
    requires 2 * n <= |pairs|
  {
    forall g :: 0 <= g < n ==> !pairs[2 * g + 1].Stacktrace?
  }

  lemma {:induction false} FinalTraceDefault(pairs: seq<Value>, n: nat, init: string)
    requires 2 * n <= |pairs| && TraceFree(pairs, n)
    ensures FinalTrace(pairs, n, init) == init
  {
    if n > 0 {
      FinalTraceDefault(pairs, n - 1, init);
    }
  }

  /** A stack trace passed as the dangling last argument ends the line,
      after the newline and with no newline of its own: the line is the one
      the other arguments give, followed by the trace. */
  lemma TrailingStacktrace(d: Details, p: Printer, site: Option<CallSite>, level: Level, msg: string, args: seq<Value>)
    requires |args| > 0 && args[|args| - 1].Stacktrace?
    requires var all := d.implied + args; |all| % 2 == 1 && |all| > 1
    requires var front := d.implied + args[..|args| - 1]; TraceFree(front, |front| / 2)
    requires Writable(d.implied + args)
    ensures Writable(d.implied + args[..|args| - 1])
    ensures Line(d, p, site, level, msg, args)
         == Line(d, p, site, level, msg, args[..|args| - 1]) + args[|args| - 1].trace
  {
    var all := d.implied + args;
    var front := d.implied + args[..|args| - 1];
    var trace := args[|args| - 1].trace;
    assert all[..|all| - 1] == front;
    assert Split(all) == (front, trace);
    assert Split(front) == (front, "");
    FinalTraceDefault(front, |front| / 2, "");
    FinalTraceDefault(front, |front| / 2, trace);
    assert Body(p, all) == Body(p, front);
    var lead := Lead(d, site, level, msg);
    assert ArgsText(p, front) == Body(p, front) + "\n" + "";
    AppendEmpty(Body(p, front) + "\n");
    ConcatAssoc(lead, Body(p, front) + "\n", trace);
  }

  /** The line of a call without arguments: the lead and the newline. */
  lemma NoArgsLine(d: Details, p: Printer, site: Option<CallSite>, level: Level, msg: string)
    requires d.implied == []
    ensures Writable(d.implied + [])
    ensures Line(d, p, site, level, msg, []) == Lead(d, site, level, msg) + "\n"
  {
    assert d.implied + [] == [];
    assert ArgsText(p, []) == "" + "\n" + "";
  }

  // ---- the JSON map ----

  /** jsonMapEntry of log.go: message, time stamp and level always, the
      module for a named logger, and the untrimmed caller when caller
      reporting is on and the frame was found. */
  function Entry(d: Details, site: Option<CallSite>, level: Level, msg: string): map<string, Value> {
    var vals := map["@message" := Str(msg), "@timestamp" := Str(d.t.format(JsonFormat.TimestampLayout))];
    var vals := vals["@level" := Str(JsonFormat.JsonLevel(level))];
    var vals := if d.name != "" then vals["@module" := Str(d.name)] else vals;
    if d.caller && site.Some? then vals["@caller" := Str(site.value.file + ":" + Decimal(site.value.line))]
    else vals
  }

  /** log.go's reserved entries are json.go's, with caller reporting on or
      off in place of a caller offset. */
  lemma EntryMatchesJsonGo(d: Details, site: Option<CallSite>, level: Level, msg: string, offset: int)
    requires d.caller <==> offset > 0
    ensures Entry(d, site, level, msg)
         == JsonFormat.MapEntry(JsonFormat.JsonFormatter(d.tfmt, offset), d.t, site, d.name, level, msg)
  {
  }

  /** The pairs after the odd-length repair. */
  function JsonPairs(args: seq<Value>): (pairs: seq<Value>)
    ensures |pairs| % 2 == 0
  {
    Split(args).0
  }

  /** The map before the pairs: the reserved entries, and a dangling stack
      trace under "stacktrace". */
  function JsonBase(entry: map<string, Value>, args: seq<Value>): map<string, Value> {
    var n := |args|;
    if n % 2 == 1 && args[n - 1].Stacktrace? then entry["stacktrace" := args[n - 1]] else entry
  }

  /** The first `n` pairs assigned into `m` in order, skipping every pair
      whose key is not a string. */
  function MergeStrings(p: Printer, m: map<string, Value>, pairs: seq<Value>, n: nat): map<string, Value>
    requires 2 * n <= |pairs|
  {
    if n == 0 then m
    else if pairs[2 * (n - 1)].Str? then
      MergeStrings(p, m, pairs, n - 1)[pairs[2 * (n - 1)].s := JsonFormat.JsonValue(p, pairs[2 * (n - 1) + 1])]
    else MergeStrings(p, m, pairs, n - 1)
  }

  /** The string keys among the first `n` pairs. */
  function StringKeysOf(pairs: seq<Value>, n: nat): set<string>
    requires 2 * n <= |pairs|
  {
    set g | 0 <= g < n && pairs[2 * g].Str? :: pairs[2 * g].s
  }

  /** Pairs with a non-string key leave no trace: the keys of the result are
      the keys already there and the string keys of the pairs. */
  lemma {:induction false} MergeStringsKeys(p: Printer, m: map<string, Value>, pairs: seq<Value>, n: nat)
    requires 2 * n <= |pairs|
    ensures MergeStrings(p, m, pairs, n).Keys == m.Keys + StringKeysOf(pairs, n)
  {
    if n > 0 {
      MergeStringsKeys(p, m, pairs, n - 1);
      var earlier := StringKeysOf(pairs, n - 1);
      var all := StringKeysOf(pairs, n);
      var h := n - 1;
      if pairs[2 * h].Str? {
        assert all == earlier + {pairs[2 * h].s} by {
          forall k | k in all ensures k in earlier + {pairs[2 * h].s} {
            var g :| 0 <= g < n && pairs[2 * g].Str? && pairs[2 * g].s == k;
          }
        }
      } else {
        assert all == earlier by {
          forall k | k in all ensures k in earlier {
            var g :| 0 <= g < n && pairs[2 * g].Str? && pairs[2 * g].s == k;
          }
        }
      }
    }
  }

  /** The last pair with a given string key decides its value. */
  lemma {:induction false} MergeStringsLastWins(p: Printer, m: map<string, Value>, pairs: seq<Value>, n: nat, g: nat)
    requires 2 * n <= |pairs| && g < n && pairs[2 * g].Str?
    requires forall h :: g < h < n ==> pairs[2 * h] != pairs[2 * g]
    ensures var r := MergeStrings(p, m, pairs, n);
            pairs[2 * g].s in r && r[pairs[2 * g].s] == JsonFormat.JsonValue(p, pairs[2 * g + 1])
  {
    var h := n - 1;
    if g < h {
      assert pairs[2 * h] != pairs[2 * g];
      MergeStringsLastWins(p, m, pairs, h, g);
    }
  }

  /** The map buildJSON hands to the encoder. */
  function Vals(d: Details, p: Printer, site: Option<CallSite>, level: Level, msg: string, args: seq<Value>): map<string, Value> {
    var all := d.implied + args;
    var pairs := JsonPairs(all);
    MergeStrings(p, JsonBase(Entry(d, site, level, msg), all), pairs, |pairs| / 2)
  }

  /** The record written when the encoder rejects a value's type. */
  function Fallback(d: Details, site: Option<CallSite>, level: Level, msg: string): map<string, Value> {
    Entry(d, site, level, msg)["@warn" := Str(JsonFormat.UnsupportedTypeMsg)]
  }

  /** The bytes buildJSON returns. */
  function JsonLine(d: Details, p: Printer, site: Option<CallSite>, level: Level, msg: string, args: seq<Value>): string {
    JsonFormat.Encode(p, Vals(d, p, site, level, msg, args), Fallback(d, site, level, msg))
  }

  /** lineDetails.buildJSON: fills the map and encodes it. */
  method BuildJson(d: Details, p: Printer, site: Option<CallSite>, level: Level, msg: string, args: seq<Value>)
    returns (out: string)
    ensures out == JsonLine(d, p, site, level, msg, args)
  {
    var vals := FillVals(d, p, site, level, msg, args);
    var encoded := p.encode(vals);
    out := "";
    match encoded {
      case Encoded(text) =>
        out := text;
      case UnsupportedType =>
        var plainVal := Entry(d, site, level, msg);
        plainVal := plainVal["@warn" := Str(JsonFormat.UnsupportedTypeMsg)];
        var second := p.encode(plainVal);
        if second.Encoded? {
          out := second.text;
        }
      case EncodeFailed =>
    }
  }

  /** The first half of buildJSON: the reserved entries, the odd-length
      repair and the pairs. */
  method FillVals(d: Details, p: Printer, site: Option<CallSite>, level: Level, msg: string, args: seq<Value>)
    returns (vals: map<string, Value>)
    ensures vals == Vals(d, p, site, level, msg, args)
  {
    vals := Entry(d, site, level, msg);
    var all := d.implied + args;
    var pairs := all;
    if |all| > 0 {
      if |all| % 2 != 0 {
        if all[|all| - 1].Stacktrace? {
          pairs := all[..|all| - 1];
          vals := vals["stacktrace" := all[|all| - 1]];
        } else {
          pairs := all + [Str(Unknown)];
        }
      }
      assert pairs == JsonPairs(all) && vals == JsonBase(Entry(d, site, level, msg), all);
      vals := AssignStringPairs(p, vals, pairs);
    }
  }

  /** The loop of buildJSON: assigns every pair with a string key. */
  method AssignStringPairs(p: Printer, start: map<string, Value>, pairs: seq<Value>)
    returns (vals: map<string, Value>)
    requires |pairs| % 2 == 0
    ensures vals == MergeStrings(p, start, pairs, |pairs| / 2)
  {
    vals := start;
    var i := 0;
    ghost var g := 0;
    while i < |pairs|
      invariant 2 * g == i <= |pairs|
      invariant vals == MergeStrings(p, start, pairs, g)
    {
      if pairs[i].Str? {
        var val := pairs[i + 1];
        match val {
          case Err(message, marshaler) =>
            if !marshaler {
              val := Str(message);
            }
          case Format(template, fargs) =>
            val := Str(p.sprintf(template, fargs));
          case _ =>
        }
        vals := vals[pairs[i].s := val];
      }
      i := i + 2;
      g := g + 1;
    }
  }

  // ---- properties of the JSON map ----

  /** A dangling value with a string form is stored under its own text,
      with "<unknown>" as the value: the JSON map takes it for a key too. */
  lemma JsonDanglingValueBecomesKey(d: Details, p: Printer, site: Option<CallSite>, level: Level, msg: string, args: seq<Value>)
    requires var all := d.implied + args; |all| % 2 == 1 && all[|all| - 1].Str?
    ensures var all := d.implied + args;
            var m := Vals(d, p, site, level, msg, args);
            all[|all| - 1].s in m && m[all[|all| - 1].s] == Str(Unknown)
  {
    var all := d.implied + args;
    var pairs := JsonPairs(all);
    var last := |pairs| / 2 - 1;
    assert pairs[2 * last] == all[|all| - 1] && pairs[2 * last + 1] == Str(Unknown);
    MergeStringsLastWins(p, JsonBase(Entry(d, site, level, msg), all), pairs, last + 1, last);
  }

  /** A pair whose key is not a string is left out: with only such pairs,
      the map holds the reserved entries and nothing else. */
  lemma NonStringKeysDropped(d: Details, p: Printer, site: Option<CallSite>, level: Level, msg: string, args: seq<Value>)
    requires d.implied == [] && |args| % 2 == 0
    requires forall g :: 0 <= g < |args| / 2 ==> !args[2 * g].Str?
    ensures Vals(d, p, site, level, msg, args) == Entry(d, site, level, msg)
  {
    var all := d.implied + args;
    assert all == args;
    var n := |args| / 2;
    NoStringKeys(p, Entry(d, site, level, msg), args, n);
  }

  lemma {:induction false} NoStringKeys(p: Printer, m: map<string, Value>, pairs: seq<Value>, n: nat)
    requires 2 * n <= |pairs|
    requires forall g :: 0 <= g < n ==> !pairs[2 * g].Str?
    ensures MergeStrings(p, m, pairs, n) == m
  {
    if n > 0 {
      var h := n - 1;
      assert !pairs[2 * h].Str?;
      NoStringKeys(p, m, pairs, h);
    }
  }

  /** When the encoder rejects a value's type, the output is the encoded
      fallback record: the reserved entries and "@warn". */
  lemma JsonFallbackOnUnsupportedType(d: Details, p: Printer, site: Option<CallSite>, level: Level, msg: string, args: seq<Value>)
    requires p.encode(Vals(d, p, site, level, msg, args)) == UnsupportedType
    ensures var fb := Fallback(d, site, level, msg);
            && JsonLine(d, p, site, level, msg, args) == (if p.encode(fb).Encoded? then p.encode(fb).text else "")
            && "@warn" in fb && fb["@warn"] == Str(JsonFormat.UnsupportedTypeMsg)
            && fb.Keys == Entry(d, site, level, msg).Keys + {"@warn"}
  {
  }
}
