/** formatter.go: the human-readable line format of the hclog logger. */
module TextFormat {
  import opened GoStrings
  import opened Values
  import opened Levels

  /** textFormat: the layout handed to time.Format and the caller depth. */
  datatype TextFormatter = TextFormatter(timeFormat: string, callerOffset: int)

  /** _levelToBracket: the seven-character tag of each message level. */
  const LevelToBracket: map<Level, string> :=
    map[Debug := "[DEBUG]", Trace := "[TRACE]", Info := "[INFO] ", Warn := "[WARN] ", Error := "[ERROR]"]

  /** The tag written for a level: its bracket, or "[?????]" for a level with
      no bracket. Every tag is seven characters wide, so messages line up. */
  function LevelBracket(level: Level): (r: string)
    ensures |r| == 7 && r[0] == '['
    ensures (level in LevelToBracket) == IsMessageLevel(level)
    ensures !IsMessageLevel(level) <==> r == "[?????]"
  {
    if level in LevelToBracket then LevelToBracket[level] else "[?????]"
  }

  /** The tag of a message level spells the level's name in capitals. */
  lemma BracketNamesLevel(level: Level)
    requires IsMessageLevel(level)
    ensures var name := LevelString(level);
            1 + |name| <= 7 && ToLower(LevelBracket(level)[1..1 + |name|]) == name
  {
    if level == Trace {
      TagSpells(level, "[TRACE]", "trace");
    } else if level == Debug {
      TagSpells(level, "[DEBUG]", "debug");
    } else if level == Info {
      TagSpells(level, "[INFO] ", "info");
    } else if level == Warn {
      TagSpells(level, "[WARN] ", "warn");
    } else {
      TagSpells(level, "[ERROR]", "error");
    }
  }

  lemma TagSpells(level: Level, tag: string, name: string)
    requires IsMessageLevel(level) && LevelToBracket[level] == tag && LevelString(level) == name
    requires 1 + |name| <= |tag|
    requires forall i :: 0 <= i < |name| ==> 'A' <= tag[1 + i] <= 'Z' && tag[1 + i] as int + 32 == name[i] as int
    ensures var name := LevelString(level);
            1 + |name| <= 7 && ToLower(LevelBracket(level)[1..1 + |name|]) == name
  {
    var word := tag[1..1 + |name|];
    assert LevelBracket(level) == tag;
    forall i | 0 <= i < |name| ensures ToLower(word)[i] == name[i] {
      assert word[i] == tag[1 + i];
    }
    assert ToLower(word) == name;
  }

  // ---- trimCallerPath ----

  /** How many times `c` occurs in `s`. */
  function Count(s: string, c: char): nat {
    if |s| == 0 then 0 else Count(s[..|s| - 1], c) + (if s[|s| - 1] == c then 1 else 0)
  }

  lemma {:induction false} CountAppend(a: string, b: string, c: char)
    ensures Count(a + b, c) == Count(a, c) + Count(b, c)
    decreases |b|
  {
    if |b| == 0 {
      assert a + b == a;
    } else {
      assert (a + b)[..|a + b| - 1] == a + b[..|b| - 1];
      CountAppend(a, b[..|b| - 1], c);
    }
  }

  lemma {:induction false} CountAbsent(s: string, c: char)
    requires forall i :: 0 <= i < |s| ==> s[i] != c
    ensures Count(s, c) == 0
  {
    if |s| > 0 {
      CountAbsent(s[..|s| - 1], c);
    }
  }

  /** trimCallerPath: the last two segments of a '/'-separated path. */
  function TrimCallerPath(path: string): string {
    var idx := LastIndex(path, '/');
    if idx == -1 then path
    else
      var idx2 := LastIndex(path[..idx], '/');
      if idx2 == -1 then path else path[idx2 + 1..]
  }

  /** The occurrences of `c` up to and including the last one at `k`. */
  lemma CountLast(s: string, k: nat, c: char)
    requires k < |s| && s[k] == c && forall i :: k < i < |s| ==> s[i] != c
    ensures Count(s, c) == Count(s[..k], c) + 1
    ensures Count(s[k + 1..], c) == 0
  {
    CountAbsent(s[k + 1..], c);
    assert s == s[..k] + ([s[k]] + s[k + 1..]);
    CountAppend(s[..k], [s[k]] + s[k + 1..], c);
    CountAppend([s[k]], s[k + 1..], c);
    assert [s[k]][..0] == [];
  }

  /** A path with fewer than two separators is kept whole; otherwise what is
      kept is everything after the penultimate separator, which holds exactly
      one separator. */
  lemma {:induction false} TrimCallerPathSegments(path: string)
    ensures var r := TrimCallerPath(path);
            |r| <= |path| && r == path[|path| - |r|..]
    ensures Count(path, '/') < 2 ==> TrimCallerPath(path) == path
    ensures Count(path, '/') >= 2 ==>
              var r := TrimCallerPath(path);
              |r| < |path| && path[|path| - |r| - 1] == '/' && Count(r, '/') == 1
  {
    var idx := LastIndex(path, '/');
    LastIndexFinds(path, '/');
    if idx == -1 {
      CountAbsent(path, '/');
    } else {
      TrimCallerPathFound(path, idx);
    }
  }

  /** The case where the path holds a separator, the last one at `idx`. */
  lemma TrimCallerPathFound(path: string, idx: nat)
    requires idx == LastIndex(path, '/') && idx < |path| && path[idx] == '/'
    requires forall i :: idx < i < |path| ==> path[i] != '/'
    ensures var r := TrimCallerPath(path);
            |r| <= |path| && r == path[|path| - |r|..]
    ensures Count(path, '/') < 2 ==> TrimCallerPath(path) == path
    ensures Count(path, '/') >= 2 ==>
              var r := TrimCallerPath(path);
              |r| < |path| && path[|path| - |r| - 1] == '/' && Count(r, '/') == 1
  {
    var head := path[..idx];
    var idx2 := LastIndex(head, '/');
    var r := TrimCallerPath(path);
    if idx2 == -1 {
      assert r == path;
      assert Count(path, '/') == 1 by {
        LastIndexFinds(head, '/');
        CountLast(path, idx, '/');
        CountAbsent(head, '/');
      }
    } else {
      assert r == path[idx2 + 1..];
      assert path[idx2] == '/' && forall i :: idx2 < i < idx ==> path[i] != '/' by {
        LastIndexFinds(head, '/');
        forall i | idx2 < i < idx ensures path[i] != '/' {
          assert path[i] == head[i];
        }
      }
      assert Count(path, '/') >= 2 by {
        LastIndexFinds(head, '/');
        CountLast(path, idx, '/');
        CountLast(head, idx2, '/');
      }
      LastTwoSeparators(path, idx, idx2);
    }
  }

  /** The tail kept after the penultimate separator holds only the last one. */
  lemma LastTwoSeparators(path: string, idx: nat, idx2: nat)
    requires idx2 < idx < |path| && path[idx] == '/' && path[idx2] == '/'
    requires forall i :: idx < i < |path| ==> path[i] != '/'
    requires forall i :: idx2 < i < idx ==> path[i] != '/'
    ensures Count(path[idx2 + 1..], '/') == 1
  {
    var r := path[idx2 + 1..];
    forall i | idx - idx2 - 1 < i < |r| ensures r[i] != '/' {
      assert r[i] == path[idx2 + 1 + i];
    }
    CountLast(r, idx - idx2 - 1, '/');
    var head := r[..idx - idx2 - 1];
    forall i | 0 <= i < |head| ensures head[i] != '/' {
      assert head[i] == path[idx2 + 1 + i];
    }
    CountAbsent(head, '/');
  }

  // ---- renderSlice ----

  /** The text of one slice element, by its reflect kind: strings as they
      are, signed and unsigned integers in decimal, anything else by "%v". */
  function SliceElementText(v: Value): string {
    match v
    case Str(s) => s
    case Int(i) => Decimal(i)
    case Hex(h) => Decimal(h)
    case Octal(o) => Decimal(o)
    case Binary(b) => Decimal(b)
    case Uint(u) => Digits(u, 10)
    case _ => PercentV(v)
  }

  /** The kind switch of renderSlice is a shortcut: every element reads as
      its "%v" text. */
  lemma SliceElementIsPercentV(v: Value)
    ensures SliceElementText(v) == PercentV(v)
  {
  }

  /** An element as written inside the brackets: quoted when it holds white space. */
  function SliceElement(v: Value): string {
    QuoteIf(HasQuoteSpace(SliceElementText(v)), SliceElementText(v))
  }

  /** The elements as written, in order. */
  function SliceElements(elems: seq<Value>): seq<string> {
    if |elems| == 0 then [] else SliceElements(elems[..|elems| - 1]) + [SliceElement(elems[|elems| - 1])]
  }

  /** renderSlice, as a declaration: the elements separated by ", " in brackets. */
  function RenderSlice(elems: seq<Value>): string {
    "[" + Join(SliceElements(elems), ", ") + "]"
  }

  lemma {:induction false} JoinSnoc(parts: seq<string>, x: string, sep: string)
    requires |parts| > 0
    ensures Join(parts + [x], sep) == Join(parts, sep) + sep + x
  {
    if |parts| == 1 {
      assert (parts + [x])[1..] == [x];
    } else {
      assert (parts + [x])[1..] == parts[1..] + [x];
      JoinSnoc(parts[1..], x, sep);
    }
  }

  /** One more element extends the joined text by ", " (after the first) and
      that element. */
  lemma SliceElementsSnoc(elems: seq<Value>, i: nat)
    requires i < |elems|
    ensures var next := Join(SliceElements(elems[..i + 1]), ", ");
            var e := SliceElement(elems[i]);
            if i == 0 then next == e else next == Join(SliceElements(elems[..i]), ", ") + ", " + e
  {
    assert elems[..i + 1][..i] == elems[..i];
    var parts := SliceElements(elems[..i]);
    assert SliceElements(elems[..i + 1]) == parts + [SliceElement(elems[i])];
    if i > 0 {
      JoinSnoc(parts, SliceElement(elems[i]), ", ");
    }
  }

  /** renderSlice: the loop over the elements, writing ", " before every
      element but the first. */
  method RenderSliceLoop(elems: seq<Value>) returns (r: string)
    ensures r == RenderSlice(elems)
  {
    var buf := "[";
    var i := 0;
    while i < |elems|
      invariant 0 <= i <= |elems|
      invariant buf == "[" + Join(SliceElements(elems[..i]), ", ")
    {
      ghost var done := Join(SliceElements(elems[..i]), ", ");
      if i > 0 {
        buf := buf + ", ";
      }
      var val := SliceElementText(elems[i]);
      if HasQuoteSpace(val) {
        buf := buf + ("\"" + val + "\"");
      } else {
        buf := buf + val;
      }
      SliceElementsSnoc(elems, i);
      if i > 0 {
        ConcatAssoc("[", done, ", ");
        ConcatAssoc("[", done + ", ", SliceElement(elems[i]));
      } else {
        AppendEmpty("[");
      }
      i := i + 1;
    }
    assert elems[..i] == elems;
    r := buf + "]";
  }

  // ---- values ----

  /** The text of a value and whether it is written raw (never quoted). */
  datatype Rendered = Rendered(val: string, raw: bool)

  /** The type switch of Format on a value that is not a stack trace. */
  function ValueText(p: Printer, v: Value): Rendered
    requires !v.Stacktrace?
  {
    match v
    case Str(s) => Rendered(s, false)
    case Int(i) => Rendered(Decimal(i), false)
    case Uint(u) => Rendered(Digits(u, 10), false)
    case Hex(h) => Rendered("0x" + Digits(ToUint64(h), 16), false)
    case Octal(o) => Rendered("0" + Digits(ToUint64(o), 8), false)
    case Binary(b) => Rendered("0b" + Digits(ToUint64(b), 2), false)
    case Format(template, fargs) => Rendered(p.sprintf(template, fargs), false)
    case Slice(elems) => Rendered(RenderSlice(elems), true)
    case _ => Rendered(PercentV(v), false)
  }

  /** Hex, Octal and Binary carry their prefix and then the digits of the
      value as an unsigned 64-bit number, which read back to that number. */
  lemma RadixValuesRoundTrip(p: Printer, n: int)
    ensures var t := ValueText(p, Hex(n)).val;
            |t| > 2 && t[..2] == "0x" && DigitsValue(t[2..], 16) == ToUint64(n)
    ensures var t := ValueText(p, Octal(n)).val;
            |t| > 1 && t[..1] == "0" && DigitsValue(t[1..], 8) == ToUint64(n)
    ensures var t := ValueText(p, Binary(n)).val;
            |t| > 2 && t[..2] == "0b" && DigitsValue(t[2..], 2) == ToUint64(n)
  {
    DigitsRoundTrip(ToUint64(n), 16);
    DigitsRoundTrip(ToUint64(n), 8);
    DigitsRoundTrip(ToUint64(n), 2);
    assert ("0x" + Digits(ToUint64(n), 16))[2..] == Digits(ToUint64(n), 16);
    assert ("0" + Digits(ToUint64(n), 8))[1..] == Digits(ToUint64(n), 8);
    assert ("0b" + Digits(ToUint64(n), 2))[2..] == Digits(ToUint64(n), 2);
  }

  /** One key/value pair as written: " key=value", the value quoted when it
      holds white space and is not a rendered slice; a stack-trace value
      writes nothing. */
  function PairText(p: Printer, k: Value, v: Value): string
  {
    if v.Stacktrace? then ""
    else
      var rv := ValueText(p, v);
      " " + KeyText(p, k) + "=" + QuoteIf(!rv.raw && HasQuoteSpace(rv.val), rv.val)
  }

  /** The quoting rule: a rendered slice is written as it is, whatever it
      holds; a string is wrapped in double quotes exactly when it holds a
      space, tab, newline or carriage return. */
  lemma QuotingRule(p: Printer, k: Value, v: Value)
    ensures var head := " " + KeyText(p, k) + "=";
            (v.Slice? ==> PairText(p, k, v) == head + RenderSlice(v.elems))
            && (v.Str? && HasQuoteSpace(v.s) ==> PairText(p, k, v) == head + ("\"" + v.s + "\""))
            && (v.Str? && !HasQuoteSpace(v.s) ==> PairText(p, k, v) == head + v.s)
  {
  }

  /** The text of all the pairs, in order. */
  function PairsText(p: Printer, pairs: seq<Value>): string
    decreases |pairs|
  {
    if |pairs| < 2 then ""
    else PairsText(p, pairs[..|pairs| - 2]) + PairText(p, pairs[|pairs| - 2], pairs[|pairs| - 1])
  }

  /** The stack trace in force after the pairs: the last stack-trace value
      among them, or `init` when there is none. */
  function FinalTrace(pairs: seq<Value>, init: string): string
    decreases |pairs|
  {
    if |pairs| < 2 then init
    else if pairs[|pairs| - 1].Stacktrace? then pairs[|pairs| - 1].trace
    else FinalTrace(pairs[..|pairs| - 2], init)
  }

  /** No value position holds a stack trace. */
  predicate TraceFree(pairs: seq<Value>) {
    forall i :: 0 <= i < |pairs| && i % 2 == 1 ==> !pairs[i].Stacktrace?
  }

  /** Without stack-trace values among the pairs, the initial stack trace stays. */
  lemma {:induction false} FinalTraceDefault(pairs: seq<Value>, init: string)
    requires |pairs| % 2 == 0 && TraceFree(pairs)
    ensures FinalTrace(pairs, init) == init
    decreases |pairs|
  {
    if |pairs| >= 2 {
      var n := |pairs|;
      assert (n - 1) % 2 == 1;
      assert TraceFree(pairs[..n - 2]) by {
        forall i | 0 <= i < n - 2 && i % 2 == 1 ensures !pairs[..n - 2][i].Stacktrace? {
          assert pairs[..n - 2][i] == pairs[i];
        }
      }
      FinalTraceDefault(pairs[..n - 2], init);
    }
  }

  /** Pairs render independently of one another: the text of two argument
      lists one after the other is the text of the first followed by the
      text of the second. */
  lemma {:induction false} PairsTextAppend(p: Printer, a: seq<Value>, b: seq<Value>)
    requires |a| % 2 == 0 && |b| % 2 == 0
    ensures PairsText(p, a + b) == PairsText(p, a) + PairsText(p, b)
    decreases |b|
  {
    if |b| == 0 {
      assert a + b == a;
    } else {
      var ab := a + b;
      assert ab[..|ab| - 2] == a + b[..|b| - 2];
      assert ab[|ab| - 2] == b[|b| - 2] && ab[|ab| - 1] == b[|b| - 1];
      PairsTextAppend(p, a, b[..|b| - 2]);
    }
  }

  // ---- the dangling argument ----

  /** The argument list after Format's odd-length repair, and the stack trace
      taken from it: a trailing stack trace is removed and kept; any other
      dangling value is given the key MissingKey. */
  function SplitTrailer(args: seq<Value>): (r: (seq<Value>, string))
    ensures |r.0| % 2 == 0
    ensures |args| % 2 == 0 ==> r == (args, "")
    ensures |args| % 2 == 1 && args[|args| - 1].Stacktrace? ==>
              r == (args[..|args| - 1], args[|args| - 1].trace)
    ensures |args| % 2 == 1 && !args[|args| - 1].Stacktrace? ==>
              r == (args[..|args| - 1] + [Str(MissingKey), args[|args| - 1]], "")
  {
    if |args| % 2 == 0 then (args, "")
    else if args[|args| - 1].Stacktrace? then (args[..|args| - 1], args[|args| - 1].trace)
    else (args[..|args| - 1] + [Str(MissingKey), args[|args| - 1]], "")
  }

  // ---- the whole line ----

  /** The time stamp, written only when a time format is set. */
  function StampText(f: TextFormatter, t: Moment): string {
    if |f.timeFormat| > 0 then t.format(f.timeFormat) + " " else ""
  }

  /** " file:line:", written only when caller reporting is on and the frame was found. */
  function CallerText(f: TextFormatter, site: Option<CallSite>): string {
    if f.callerOffset > 0 && site.Some? then
      " " + TrimCallerPath(site.value.file) + ":" + Decimal(site.value.line) + ":"
    else ""
  }

  /** The time stamp, tag and caller at the start of a line. */
  function Header(f: TextFormatter, t: Moment, site: Option<CallSite>, level: Level): string {
    StampText(f, t) + LevelBracket(level) + CallerText(f, site)
  }

  /** The header, the logger name (for a named logger) and the message. */
  function Lead(f: TextFormatter, t: Moment, site: Option<CallSite>,
                name: string, level: Level, msg: string): string {
    (if name != "" then Header(f, t, site, level) + " " + (name + ": ")
     else Header(f, t, site, level) + " ") + msg
  }

  /** The stack trace in force once all arguments are seen. */
  function LineTrace(args: seq<Value>): string {
    FinalTrace(SplitTrailer(args).0, SplitTrailer(args).1)
  }

  /** What follows the message: ':' and the pairs when there are arguments,
      the newline, then the stack trace on a line of its own when there is
      one. */
  function ArgsText(p: Printer, args: seq<Value>): string {
    var pairs := if |args| > 0 then ":" + PairsText(p, SplitTrailer(args).0) + "\n" else "\n";
    var trace := LineTrace(args);
    if trace != "" then pairs + (trace + "\n") else pairs
  }

  /** The line textFormat.Format writes: header, name and message, then the
      arguments. `t` is the moment time.Now returns and `site` what
      runtime.Caller(callerOffset) reports. */
  function Line(f: TextFormatter, p: Printer, t: Moment, site: Option<CallSite>,
                name: string, level: Level, msg: string, args: seq<Value>): string
  {
    Lead(f, t, site, name, level, msg) + ArgsText(p, args)
  }

  /** textFormat.Format: writes the line piece by piece into a buffer. */
  method Format(f: TextFormatter, p: Printer, t: Moment, site: Option<CallSite>,
                name: string, level: Level, msg: string, args: seq<Value>) returns (out: string)
    ensures out == Line(f, p, t, site, name, level, msg, args)
  {
    var buf := "";
    if |f.timeFormat| > 0 {
      buf := t.format(f.timeFormat) + " ";
    }
    assert buf == StampText(f, t);
    if level in LevelToBracket {
      buf := buf + LevelToBracket[level];
    } else {
      buf := buf + "[?????]";
    }
    assert buf == StampText(f, t) + LevelBracket(level);
    if f.callerOffset > 0 {
      if site.Some? {
        buf := buf + (" " + TrimCallerPath(site.value.file) + ":" + Decimal(site.value.line) + ":");
      }
    }
    assert buf == Header(f, t, site, level);
    buf := buf + " ";
    if name != "" {
      buf := buf + (name + ": ");
    }
    buf := buf + msg;
    assert buf == Lead(f, t, site, name, level, msg);
    out := WriteArgs(p, args, buf);
  }

  /** The second half of textFormat.Format: the odd-length repair, the pairs,
      the newline and the stack trace, appended to `start`. */
  method WriteArgs(p: Printer, args: seq<Value>, start: string) returns (buf: string)
    ensures buf == start + ArgsText(p, args)
  {
    buf := start;
    var stacktrace := "";
    var pairs := args;
    if |args| > 0 {
      if |args| % 2 != 0 {
        if args[|args| - 1].Stacktrace? {
          stacktrace := args[|args| - 1].trace;
          pairs := args[..|args| - 1];
        } else {
          pairs := args[..|args| - 1] + [Str(MissingKey), args[|args| - 1]];
        }
      }
      assert pairs == SplitTrailer(args).0 && stacktrace == SplitTrailer(args).1;
      buf := buf + ":";
      buf, stacktrace := WritePairs(p, pairs, stacktrace, buf);
      buf := buf + "\n";
      ConcatAssoc(start, ":", PairsText(p, pairs));
      ConcatAssoc(start, ":" + PairsText(p, pairs), "\n");
    } else {
      buf := buf + "\n";
    }
    ghost var piece := if |args| > 0 then ":" + PairsText(p, SplitTrailer(args).0) + "\n" else "\n";
    assert buf == start + piece;
    assert stacktrace == LineTrace(args);
    if stacktrace != "" {
      buf := buf + (stacktrace + "\n");
      ConcatAssoc(start, piece, stacktrace + "\n");
    }
  }

  /** The FOR loop of textFormat.Format: appends each pair to `start` and
      follows the stack-trace values among them. */
  method WritePairs(p: Printer, pairs: seq<Value>, init: string, start: string)
    returns (buf: string, stacktrace: string)
    requires |pairs| % 2 == 0
    ensures buf == start + PairsText(p, pairs)
    ensures stacktrace == FinalTrace(pairs, init)
  {
    buf := start;
    stacktrace := init;
    AppendEmpty(start);
    ghost var half := |pairs| / 2;
    assert |pairs| == 2 * half;
    var i := 0;
    ghost var j := 0;
    while i < |pairs|
      invariant 0 <= j <= half && i == 2 * j
      invariant buf == start + PairsText(p, pairs[..i])
      invariant stacktrace == FinalTrace(pairs[..i], init)
    {
      ghost var done := PairsText(p, pairs[..i]);
      if pairs[i + 1].Stacktrace? {
        stacktrace := pairs[i + 1].trace;
      } else {
        var rv := ValueText(p, pairs[i + 1]);
        var val;
        if !rv.raw && HasQuoteSpace(rv.val) {
          val := "\"" + rv.val + "\"";
        } else {
          val := rv.val;
        }
        buf := buf + (" " + KeyText(p, pairs[i]) + "=" + val);
      }
      assert buf == start + done + PairText(p, pairs[i], pairs[i + 1]) by {
        if pairs[i + 1].Stacktrace? {
          AppendEmpty(start + done);
        }
      }
      PairsTextSnoc(p, pairs, i);
      FinalTraceSnoc(pairs, i, init);
      ConcatAssoc(start, done, PairText(p, pairs[i], pairs[i + 1]));
      i := i + 2;
      j := j + 1;
    }
    assert pairs[..i] == pairs;
  }

  /** One more pair replaces the stack trace exactly when its value is one. */
  lemma FinalTraceSnoc(pairs: seq<Value>, i: nat, init: string)
    requires i + 2 <= |pairs|
    ensures FinalTrace(pairs[..i + 2], init)
         == if pairs[i + 1].Stacktrace? then pairs[i + 1].trace else FinalTrace(pairs[..i], init)
  {
    assert pairs[..i + 2][..i] == pairs[..i];
  }

  /** One more pair extends the text by that pair's text. */
  lemma PairsTextSnoc(p: Printer, pairs: seq<Value>, i: nat)
    requires i + 2 <= |pairs|
    ensures PairsText(p, pairs[..i + 2]) == PairsText(p, pairs[..i]) + PairText(p, pairs[i], pairs[i + 1])
  {
    assert pairs[..i + 2][..i] == pairs[..i];
    assert pairs[..i + 2][i] == pairs[i] && pairs[..i + 2][i + 1] == pairs[i + 1];
  }

  // ---- properties of the line ----

  /** A line starts with its header, then the logger name and message, and
      ends with a newline. */
  lemma LineFrame(f: TextFormatter, p: Printer, t: Moment, site: Option<CallSite>,
                  name: string, level: Level, msg: string, args: seq<Value>)
    ensures var line := Line(f, p, t, site, name, level, msg, args);
            HasPrefix(line, Header(f, t, site, level))
            && HasPrefix(line, Lead(f, t, site, name, level, msg))
            && line[|line| - 1] == '\n'
  {
    var header := Header(f, t, site, level);
    var lead := Lead(f, t, site, name, level, msg);
    var rest := ArgsText(p, args);
    assert HasPrefix(lead, header) by {
      assert HasPrefix(header, header);
      PrefixAppend(header, " ", header);
      if name != "" {
        PrefixAppend(header + " ", name + ": ", header);
        PrefixAppend(header + " " + (name + ": "), msg, header);
      } else {
        PrefixAppend(header + " ", msg, header);
      }
    }
    assert HasPrefix(lead, lead);
    PrefixAppend(lead, rest, header);
    PrefixAppend(lead, rest, lead);
    ArgsTextShape(p, args);
    assert (lead + rest)[|lead + rest| - 1] == rest[|rest| - 1];
  }

  /** The argument text opens with ':' when there are arguments and with the
      newline otherwise, and always ends with a newline. */
  lemma ArgsTextShape(p: Printer, args: seq<Value>)
    ensures var rest := ArgsText(p, args);
            |rest| > 0 && (rest[0] == ':' <==> |args| > 0) && (|args| == 0 ==> rest[0] == '\n')
            && rest[|rest| - 1] == '\n'
  {
  }

  /** The character right after the message is ':' exactly when the call
      has arguments (a lone stack trace counts), and the newline otherwise. */
  lemma ColonIffArgs(f: TextFormatter, p: Printer, t: Moment, site: Option<CallSite>,
                     name: string, level: Level, msg: string, args: seq<Value>)
    ensures var line := Line(f, p, t, site, name, level, msg, args);
            var k := |Lead(f, t, site, name, level, msg)|;
            k < |line| && (line[k] == ':' <==> |args| > 0) && (|args| == 0 ==> line[k] == '\n')
  {
    var lead := Lead(f, t, site, name, level, msg);
    var rest := ArgsText(p, args);
    ArgsTextShape(p, args);
    assert (lead + rest)[|lead|] == rest[0];
  }

  /** A dangling value that is not a stack trace is written as the last
      pair, under the key EXTRA_VALUE_AT_END. */
  lemma {:induction false} DanglingValueGetsMissingKey(p: Printer, args: seq<Value>)
    requires |args| % 2 == 1 && !args[|args| - 1].Stacktrace?
    ensures PairsText(p, SplitTrailer(args).0)
         == PairsText(p, args[..|args| - 1]) + PairText(p, Str(MissingKey), args[|args| - 1])
  {
    var pairs := SplitTrailer(args).0;
    assert pairs[..|pairs| - 2] == args[..|args| - 1];
  }

  /** A stack trace passed as the dangling last argument is not written as a
      pair: the line is the one the other arguments give, followed by the
      stack trace on a line of its own (when no earlier stack-trace value
      replaces it). */
  lemma TrailingStacktraceLine(f: TextFormatter, p: Printer, t: Moment, site: Option<CallSite>,
                               name: string, level: Level, msg: string, args: seq<Value>)
    requires |args| > 1 && |args| % 2 == 1
    requires args[|args| - 1].Stacktrace? && args[|args| - 1].trace != ""
    requires TraceFree(args[..|args| - 1])
    ensures Line(f, p, t, site, name, level, msg, args)
         == Line(f, p, t, site, name, level, msg, args[..|args| - 1]) + (args[|args| - 1].trace + "\n")
  {
    var rest := args[..|args| - 1];
    var trace := args[|args| - 1].trace;
    assert LineTrace(rest) == "" by {
      assert SplitTrailer(rest) == (rest, "");
      FinalTraceDefault(rest, "");
    }
    assert LineTrace(args) == trace by {
      assert SplitTrailer(args) == (rest, trace);
      FinalTraceDefault(rest, trace);
    }
    assert ArgsText(p, args) == ArgsText(p, rest) + (trace + "\n");
    ConcatAssoc(Lead(f, t, site, name, level, msg), ArgsText(p, rest), trace + "\n");
  }

  /** The line of the library's own example, written out piece by piece:
      no time format, no caller, the logger named "test", two plain pairs,
      giving "[INFO]  test: this is test: who=programmer why=testing\n". */
  lemma ExampleLine(p: Printer, t: Moment)
    ensures Line(TextFormatter("", 0), p, t, None, "test", Info, "this is test",
                 [Str("who"), Str("programmer"), Str("why"), Str("testing")])
         == ("[INFO] " + " " + ("test" + ": ") + "this is test")
          + (":" + ((" " + "who" + "=" + "programmer") + (" " + "why" + "=" + "testing")) + "\n")
  {
    var f := TextFormatter("", 0);
    var args := [Str("who"), Str("programmer"), Str("why"), Str("testing")];
    assert Header(f, t, None, Info) == "[INFO] " by {
      AppendEmpty("[INFO] ");
    }
    assert ArgsText(p, args) == ":" + ((" " + "who" + "=" + "programmer") + (" " + "why" + "=" + "testing")) + "\n" by {
      ExamplePairs(p);
      assert SplitTrailer(args).0 == args;
    }
  }

  /** The pairs and the stack trace of the example line. */
  lemma ExamplePairs(p: Printer)
    ensures var args := [Str("who"), Str("programmer"), Str("why"), Str("testing")];
            PairsText(p, args) == (" " + "who" + "=" + "programmer") + (" " + "why" + "=" + "testing")
            && LineTrace(args) == ""
  {
    var args := [Str("who"), Str("programmer"), Str("why"), Str("testing")];
    var first := args[..2];
    assert first == [Str("who"), Str("programmer")];
    PlainPair(p, "who", "programmer");
    PlainPair(p, "why", "testing");
    assert PairsText(p, first) == " " + "who" + "=" + "programmer" by {
      assert first[..0] == [];
      assert PairsText(p, first) == "" + PairText(p, Str("who"), Str("programmer"));
    }
    assert FinalTrace(args, "") == "" by {
      assert FinalTrace(first, "") == "";
    }
  }

  /** A pair of plain words is written " key=value", unquoted. */
  lemma PlainPair(p: Printer, k: string, v: string)
    requires forall i :: 0 <= i < |v| ==> 'a' <= v[i] <= 'z'
    ensures PairText(p, Str(k), Str(v)) == " " + k + "=" + v
  {
    forall i | 0 <= i < |v| ensures !IsQuoteSpace(v[i]) {
      assert 'a' <= v[i] <= 'z';
    }
  }
}
