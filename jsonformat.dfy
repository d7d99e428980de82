/** json.go: the JSON line format of the hclog logger. A line is a map from
    keys to values, handed to the JSON encoder, which the model keeps
    abstract (the `encode` field of a Printer). */
module JsonFormat {
  import opened Values
  import opened Levels

  /** jsonFormat. Its time format is carried but not used: json.go always
      writes the time stamp in its own layout. */
  datatype JsonFormatter = JsonFormatter(timeFormat: string, callerOffset: int)

  /** The layout of "@timestamp": RFC 3339 with microseconds. */
  const TimestampLayout: string := "2006-01-02T15:04:05.000000Z07:00"

  /** errJsonUnsupportedTypeMsg (intlogger.go). */
  const UnsupportedTypeMsg: string := "logging contained values that don't serialize to json"

  /** The "@level" text: the level's name for the five message levels and
      "all" for every other level. */
  function JsonLevel(level: Level): (r: string)
    ensures IsMessageLevel(level) ==> r == LevelString(level)
    ensures !IsMessageLevel(level) ==> r == "all"
  {
    if level == Error then "error"
    else if level == Warn then "warn"
    else if level == Info then "info"
    else if level == Debug then "debug"
    else if level == Trace then "trace"
    else "all"
  }

  /** jsonMapEntry: the reserved entries of a line. `t` is the moment the line
      is made and `site` what runtime.Caller(callerOffset + 1) reports. */
  function MapEntry(f: JsonFormatter, t: Moment, site: Option<CallSite>,
                    name: string, level: Level, msg: string): map<string, Value>
  {
    var vals := map["@message" := Str(msg), "@timestamp" := Str(t.format(TimestampLayout))];
    var vals := vals["@level" := Str(JsonLevel(level))];
    var vals := if name != "" then vals["@module" := Str(name)] else vals;
    if f.callerOffset > 0 && site.Some? then
      vals["@caller" := Str(site.value.file + ":" + Decimal(site.value.line))]
    else vals
  }

  /** The reserved entries: message, time stamp and level always; the module
      exactly when the logger has a name; the untrimmed caller exactly when
      caller reporting is on and the frame was found; nothing else. */
  lemma MapEntryReserved(f: JsonFormatter, t: Moment, site: Option<CallSite>,
                         name: string, level: Level, msg: string)
    ensures var m := MapEntry(f, t, site, name, level, msg);
            && "@message" in m && m["@message"] == Str(msg)
            && "@timestamp" in m && m["@timestamp"] == Str(t.format(TimestampLayout))
            && "@level" in m && m["@level"] == Str(JsonLevel(level))
            && ("@module" in m <==> name != "")
            && (name != "" ==> m["@module"] == Str(name))
            && ("@caller" in m <==> f.callerOffset > 0 && site.Some?)
            && ("@caller" in m ==> m["@caller"] == Str(site.value.file + ":" + Decimal(site.value.line)))
            && m.Keys <= {"@message", "@timestamp", "@level", "@module", "@caller"}
  {
  }

  /** The value stored for a pair: an error without a JSON or text marshaler
      becomes its Error() text, a Format value its printf expansion; every
      other value is stored as it is. */
  function JsonValue(p: Printer, v: Value): Value {
    match v
    case Err(message, marshaler) => if marshaler then v else Str(message)
    case Format(template, fargs) => Str(p.sprintf(template, fargs))
    case _ => v
  }

  /** Errors lose their marshaler-less identity, Format values are expanded,
      and Hex, Octal and Binary stay numbers: the JSON form has no radix
      prefixes. */
  lemma JsonValueCases(p: Printer, v: Value)
    ensures v.Err? && !v.marshaler ==> JsonValue(p, v) == Str(v.message)
    ensures v.Err? && v.marshaler ==> JsonValue(p, v) == v
    ensures v.Format? ==> JsonValue(p, v) == Str(p.sprintf(v.template, v.fargs))
    ensures v.Hex? || v.Octal? || v.Binary? || v.Str? || v.Int? || v.Uint? ==> JsonValue(p, v) == v
  {
  }

  /** The key of the pair numbered `g`. */
  function KeyAt(p: Printer, pairs: seq<Value>, g: nat): string
    requires 2 * g + 1 < |pairs|
  {
    KeyText(p, pairs[2 * g])
  }

  /** The first `n` pairs assigned into `m` one after the other. */
  function Merge(p: Printer, m: map<string, Value>, pairs: seq<Value>, n: nat): map<string, Value>
    requires 2 * n <= |pairs|
  {
    if n == 0 then m
    else Merge(p, m, pairs, n - 1)[KeyAt(p, pairs, n - 1) := JsonValue(p, pairs[2 * n - 1])]
  }

  /** Assignment in order means the last pair with a given key decides its
      value, whatever came before it (reserved entries included). */
  lemma {:induction false} MergeLastWins(p: Printer, m: map<string, Value>, pairs: seq<Value>, n: nat, g: nat)
    requires 2 * n <= |pairs| && g < n
    requires forall h :: g < h < n ==> KeyAt(p, pairs, h) != KeyAt(p, pairs, g)
    ensures var r := Merge(p, m, pairs, n);
            KeyAt(p, pairs, g) in r && r[KeyAt(p, pairs, g)] == JsonValue(p, pairs[2 * g + 1])
  {
    if g < n - 1 {
      MergeLastWins(p, m, pairs, n - 1, g);
    }
  }

  /** No pair of `pairs` has key `k`. */
  predicate NoPairKeyed(p: Printer, pairs: seq<Value>, k: string) {
    forall h :: 0 <= h < |pairs| / 2 ==> KeyAt(p, pairs, h) != k
  }

  /** A key that no pair names keeps the entry it had (or stays absent). */
  lemma {:induction false} MergeUntouched(p: Printer, m: map<string, Value>, pairs: seq<Value>, n: nat, k: string)
    requires 2 * n <= |pairs|
    requires forall h :: 0 <= h < n ==> KeyAt(p, pairs, h) != k
    ensures var r := Merge(p, m, pairs, n);
            (k in r <==> k in m) && (k in m ==> r[k] == m[k])
  {
    if n > 0 {
      MergeUntouched(p, m, pairs, n - 1, k);
    }
  }

  /** No pair is dropped: the keys of the result are the keys already there
      and the key of every pair, non-string keys included. */
  lemma {:induction false} MergeKeys(p: Printer, m: map<string, Value>, pairs: seq<Value>, n: nat)
    requires 2 * n <= |pairs|
    ensures Merge(p, m, pairs, n).Keys == m.Keys + set h | 0 <= h < n :: KeyAt(p, pairs, h)
  {
    if n > 0 {
      MergeKeys(p, m, pairs, n - 1);
      var earlier := set h | 0 <= h < n - 1 :: KeyAt(p, pairs, h);
      var all := set h | 0 <= h < n :: KeyAt(p, pairs, h);
      assert all == earlier + {KeyAt(p, pairs, n - 1)} by {
        forall k | k in all ensures k in earlier + {KeyAt(p, pairs, n - 1)} {
          var h :| 0 <= h < n && KeyAt(p, pairs, h) == k;
        }
      }
    }
  }

  /** The pairs after the odd-length repair: a dangling stack trace is taken
      out, any other dangling value gets the key MissingKey. */
  function JsonPairs(args: seq<Value>): (pairs: seq<Value>)
    ensures |pairs| % 2 == 0
  {
    var n := |args|;
    if n % 2 == 0 then args
    else if args[n - 1].Stacktrace? then args[..n - 1]
    else args[..n - 1] + [Str(MissingKey), args[n - 1]]
  }

  /** The map before the pairs: the reserved entries, and a dangling stack
      trace under "stacktrace". */
  function JsonBase(entry: map<string, Value>, args: seq<Value>): map<string, Value> {
    var n := |args|;
    if n % 2 == 1 && args[n - 1].Stacktrace? then entry["stacktrace" := args[n - 1]] else entry
  }

  /** The map jsonFormat.Format hands to the encoder: the reserved entries,
      a dangling stack trace under "stacktrace" (set before the pairs, so a
      pair may replace it), any other dangling value as the value of
      MissingKey, and the pairs in order. */
  function Vals(f: JsonFormatter, p: Printer, t: Moment, site: Option<CallSite>,
                name: string, level: Level, msg: string, args: seq<Value>): map<string, Value>
  {
    var pairs := JsonPairs(args);
    Merge(p, JsonBase(MapEntry(f, t, site, name, level, msg), args), pairs, |pairs| / 2)
  }

  /** The record written when the line holds a value the encoder cannot
      handle: the reserved entries and "@warn". */
  function Fallback(f: JsonFormatter, t: Moment, site: Option<CallSite>,
                    name: string, level: Level, msg: string): map<string, Value>
  {
    MapEntry(f, t, site, name, level, msg)["@warn" := Str(UnsupportedTypeMsg)]
  }

  /** What the two encoder calls leave in the buffer: the encoded map; on an
      unsupported-type error the encoded fallback record; on any other error
      nothing. */
  function Encode(p: Printer, vals: map<string, Value>, fallback: map<string, Value>): string {
    match p.encode(vals)
    case Encoded(text) => text
    case UnsupportedType =>
      (match p.encode(fallback)
       case Encoded(text) => text
       case _ => "")
    case EncodeFailed => ""
  }

  /** The bytes jsonFormat.Format returns. */
  function Output(f: JsonFormatter, p: Printer, t: Moment, site: Option<CallSite>,
                  name: string, level: Level, msg: string, args: seq<Value>): string
  {
    Encode(p, Vals(f, p, t, site, name, level, msg, args), Fallback(f, t, site, name, level, msg))
  }

  /** jsonFormat.Format: fills the map and encodes it. */
  method Format(f: JsonFormatter, p: Printer, t: Moment, site: Option<CallSite>,
                name: string, level: Level, msg: string, args: seq<Value>) returns (out: string)
    ensures out == Output(f, p, t, site, name, level, msg, args)
  {
    var vals := FillVals(f, p, t, site, name, level, msg, args);
    ghost var fallback := Fallback(f, t, site, name, level, msg);
    var encoded := p.encode(vals);
    out := "";
    match encoded {
      case Encoded(text) =>
        out := text;
      case UnsupportedType =>
        var plainVal := MapEntry(f, t, site, name, level, msg);
        plainVal := plainVal["@warn" := Str(UnsupportedTypeMsg)];
        assert plainVal == fallback;
        var second := p.encode(plainVal);
        if second.Encoded? {
          out := second.text;
        }
      case EncodeFailed =>
    }
  }

  /** The first half of jsonFormat.Format: the reserved entries, the
      odd-length repair and the pairs. */
  method FillVals(f: JsonFormatter, p: Printer, t: Moment, site: Option<CallSite>,
                  name: string, level: Level, msg: string, args: seq<Value>) returns (vals: map<string, Value>)
    ensures vals == Vals(f, p, t, site, name, level, msg, args)
  {
    vals := MapEntry(f, t, site, name, level, msg);
    var pairs := args;
    if |args| > 0 {
      if |args| % 2 != 0 {
        if args[|args| - 1].Stacktrace? {
          pairs := args[..|args| - 1];
          vals := vals["stacktrace" := args[|args| - 1]];
        } else {
          pairs := args[..|args| - 1] + [Str(MissingKey), args[|args| - 1]];
        }
      }
      assert pairs == JsonPairs(args) && vals == JsonBase(MapEntry(f, t, site, name, level, msg), args);
      vals := AssignPairs(p, vals, pairs);
    }
  }

  /** The FOR loop of jsonFormat.Format: assigns every pair into the map. */
  method AssignPairs(p: Printer, start: map<string, Value>, pairs: seq<Value>)
    returns (vals: map<string, Value>)
    requires |pairs| % 2 == 0
    ensures vals == Merge(p, start, pairs, |pairs| / 2)
  {
    vals := start;
    var i := 0;
    ghost var g := 0;
    while i < |pairs|
      invariant i == 2 * g && i <= |pairs|
      invariant vals == Merge(p, start, pairs, g)
    {
      var val := pairs[i + 1];
      match val {
        case Err(message, marshaler) =>
          if !marshaler {
            val := Str(message);
          }
        case Format(template, fargs) =>
          val := Str(p.sprintf(template, fargs));
        case _ =>
      }
      var key;
      if pairs[i].Str? {
        key := pairs[i].s;
      } else {
        key := p.sprintS(pairs[i]);
      }
      vals := vals[key := val];
      i := i + 2;
      g := g + 1;
    }
  }

  // ---- properties of the map ----

  /** A dangling stack trace is stored under "stacktrace" unless a pair uses
      that key. */
  lemma DanglingStacktraceStored(f: JsonFormatter, p: Printer, t: Moment, site: Option<CallSite>,
                                 name: string, level: Level, msg: string, args: seq<Value>)
    requires |args| % 2 == 1 && args[|args| - 1].Stacktrace?
    requires NoPairKeyed(p, args[..|args| - 1], "stacktrace")
    ensures var m := Vals(f, p, t, site, name, level, msg, args);
            "stacktrace" in m && m["stacktrace"] == args[|args| - 1]
  {
    var pairs := JsonPairs(args);
    MergeUntouched(p, JsonBase(MapEntry(f, t, site, name, level, msg), args), pairs, |pairs| / 2, "stacktrace");
  }

  /** Any other dangling value is stored under MissingKey. */
  lemma DanglingValueGetsMissingKey(f: JsonFormatter, p: Printer, t: Moment, site: Option<CallSite>,
                                    name: string, level: Level, msg: string, args: seq<Value>)
    requires |args| % 2 == 1 && !args[|args| - 1].Stacktrace?
    ensures var m := Vals(f, p, t, site, name, level, msg, args);
            MissingKey in m && m[MissingKey] == JsonValue(p, args[|args| - 1])
  {
    var n := |args|;
    var pairs := JsonPairs(args);
    var last := |pairs| / 2 - 1;
    assert pairs[2 * last] == Str(MissingKey) && pairs[2 * last + 1] == args[n - 1];
    MergeLastWins(p, JsonBase(MapEntry(f, t, site, name, level, msg), args), pairs, last + 1, last);
  }

  /** A pair may overwrite a reserved entry: the message key given as an
      argument replaces the message. */
  lemma ReservedKeyOverwritten(f: JsonFormatter, p: Printer, t: Moment, site: Option<CallSite>,
                               name: string, level: Level, msg: string, v: Value)
    ensures var m := Vals(f, p, t, site, name, level, msg, [Str("@message"), v]);
            "@message" in m && m["@message"] == JsonValue(p, v)
  {
    MergeLastWins(p, MapEntry(f, t, site, name, level, msg), [Str("@message"), v], 1, 0);
  }

  /** When the encoder rejects a value's type, the output is the encoded
      fallback record, which keeps the reserved entries and adds the warning. */
  lemma FallbackOnUnsupportedType(f: JsonFormatter, p: Printer, t: Moment, site: Option<CallSite>,
                                  name: string, level: Level, msg: string, args: seq<Value>)
    requires p.encode(Vals(f, p, t, site, name, level, msg, args)) == UnsupportedType
    ensures var fb := Fallback(f, t, site, name, level, msg);
            && Output(f, p, t, site, name, level, msg, args) == (if p.encode(fb).Encoded? then p.encode(fb).text else "")
            && "@warn" in fb && fb["@warn"] == Str(UnsupportedTypeMsg)
            && fb.Keys == MapEntry(f, t, site, name, level, msg).Keys + {"@warn"}
            && forall k :: k in MapEntry(f, t, site, name, level, msg) ==> fb[k] == MapEntry(f, t, site, name, level, msg)[k]
  {
    MapEntryReserved(f, t, site, name, level, msg);
  }

  /** Any other encoder error leaves the output empty. */
  lemma NothingOnOtherErrors(f: JsonFormatter, p: Printer, t: Moment, site: Option<CallSite>,
                             name: string, level: Level, msg: string, args: seq<Value>)
    requires p.encode(Vals(f, p, t, site, name, level, msg, args)) == EncodeFailed
    ensures Output(f, p, t, site, name, level, msg, args) == ""
  {
  }
}
