/** logger.go: the level enumeration, its parse and print functions, and the
    Fmt convenience constructor. */
module Levels {
  import opened GoStrings
  import opened Values

  /** Go: `type Level int32`. Any integer may be held; 0..6 are named. */
  type Level = int

  const NoLevel: Level := 0
  const Trace: Level := 1
  const Debug: Level := 2
  const Info: Level := 3
  const Warn: Level := 4
  const Error: Level := 5
  const Off: Level := 6

  /** The level a logger gets when none is configured. */
  const DefaultLevel: Level := Info

  /** The five levels a message can be emitted at. */
  predicate IsMessageLevel(l: Level) {
    Trace <= l <= Error
  }

  /** LevelFromString: case and surrounding white space are ignored; the six
      names map to their levels and anything else to NoLevel. */
  function LevelFromString(levelStr: string): (l: Level)
    ensures NoLevel <= l <= Off
  {
    LevelNamed(ToLower(TrimSpace(levelStr)))
  }

  /** The `switch` of LevelFromString on the normalised name. */
  function LevelNamed(s: string): (l: Level)
    ensures NoLevel <= l <= Off
  {
    if s == "trace" then Trace
    else if s == "debug" then Debug
    else if s == "info" then Info
    else if s == "warn" then Warn
    else if s == "error" then Error
    else if s == "off" then Off
    else NoLevel
  }

  /** Level.String */
  function LevelString(l: Level): string {
    if l == Trace then "trace"
    else if l == Debug then "debug"
    else if l == Info then "info"
    else if l == Warn then "warn"
    else if l == Error then "error"
    else if l == NoLevel then "none"
    else if l == Off then "off"
    else "unknown"
  }

  /** The levels are strictly ordered from NoLevel up to Off. */
  lemma LevelsOrdered()
    ensures NoLevel < Trace < Debug < Info < Warn < Error < Off
    ensures NoLevel == 0 && Off == 6
  {
  }

  /** A non-empty run of lower-case ASCII letters is its own normal form. */
  lemma {:induction false} LowerWordIsNormal(name: string)
    requires |name| > 0 && forall i :: 0 <= i < |name| ==> 'a' <= name[i] <= 'z'
    ensures ToLower(TrimSpace(name)) == name
  {
    assert TrimLeftSpace(name) == name by {
      assert !IsSpace(name[0]);
    }
    assert TrimRightSpace(name) == name by {
      assert !IsSpace(name[|name| - 1]);
    }
  }

  /** Every printed level name is already trimmed and lower-case. */
  lemma LevelNameNormal(l: Level)
    ensures ToLower(TrimSpace(LevelString(l))) == LevelString(l)
  {
    var name := LevelString(l);
    assert forall i :: 0 <= i < |name| ==> 'a' <= name[i] <= 'z';
    LowerWordIsNormal(name);
  }

  /** Printing a named level and parsing the result gives the level back;
      "none" (NoLevel) falls to the NoLevel default and every level outside
      0..6 prints as "unknown", which parses as NoLevel. */
  lemma LevelStringRoundTrip(l: Level)
    ensures NoLevel <= l <= Off ==> LevelFromString(LevelString(l)) == l
    ensures (l < NoLevel || l > Off) ==> LevelString(l) == "unknown" && LevelFromString(LevelString(l)) == NoLevel
  {
    if NoLevel <= l <= Off {
      NamedLevelRoundTrip(l);
    } else {
      UnknownLevelRoundTrip(l);
    }
  }

  lemma {:induction false} NamedLevelRoundTrip(l: Level)
    requires NoLevel <= l <= Off
    ensures LevelFromString(LevelString(l)) == l
  {
    LevelNameNormal(l);
    LevelNamedString(l);
  }

  lemma {:induction false} UnknownLevelRoundTrip(l: Level)
    requires l < NoLevel || l > Off
    ensures LevelString(l) == "unknown" && LevelFromString(LevelString(l)) == NoLevel
  {
    var name := LevelString(l);
    assert name == "unknown";
    assert LevelNamed(name) == NoLevel by {
      assert |name| == 7;
    }
    assert ToLower(TrimSpace(name)) == name by {
      LowerWordIsNormal(name);
    }
  }

  /** The name switch recognises every printed name of a level 1..6. */
  lemma LevelNamedString(l: Level)
    ensures Trace <= l <= Off ==> LevelNamed(LevelString(l)) == l
    ensures (l < Trace || l > Off) ==> LevelNamed(LevelString(l)) == NoLevel
  {
    if l == Trace {
      assert LevelNamed("trace") == Trace;
    } else if l == Debug {
      assert LevelNamed("debug") == Debug;
    } else if l == Info {
      assert LevelNamed("info") == Info;
    } else if l == Warn {
      assert LevelNamed("warn") == Warn;
    } else if l == Error {
      assert LevelNamed("error") == Error;
    } else if l == Off {
      assert LevelNamed("off") == Off;
    } else if l == NoLevel {
      assert LevelNamed("none") == NoLevel;
    } else {
      assert LevelNamed("unknown") == NoLevel;
    }
  }

  /** A recognised string prints back as its trimmed, lower-cased form. */
  lemma {:induction false} LevelFromStringRecognised(s: string)
    requires LevelFromString(s) != NoLevel
    ensures LevelString(LevelFromString(s)) == ToLower(TrimSpace(s))
  {
    LevelNamedRecognised(ToLower(TrimSpace(s)));
  }

  lemma LevelNamedRecognised(n: string)
    requires LevelNamed(n) != NoLevel
    ensures LevelString(LevelNamed(n)) == n
  {
  }

  /** LevelFromString does not see letter case. */
  lemma {:induction false} LevelFromStringIgnoresCase(s: string)
    ensures LevelFromString(ToLower(s)) == LevelFromString(s)
  {
    ToLowerTrimSpace(s);
    ToLowerIdempotent(TrimSpace(s));
    assert ToLower(TrimSpace(ToLower(s))) == ToLower(TrimSpace(s));
  }

  /** LevelFromString does not see white space around the name. */
  lemma {:induction false} LevelFromStringIgnoresSpace(pre: string, s: string, post: string)
    requires AllSpace(pre) && AllSpace(post)
    ensures LevelFromString(pre + s + post) == LevelFromString(s)
  {
    TrimSpaceSurrounded(pre, s, post);
    assert ToLower(TrimSpace(pre + s + post)) == ToLower(TrimSpace(s));
  }

  /** Fmt(str, args...): a Format holding the template and then the args. */
  function Fmt(str: string, args: seq<Value>): Value {
    Format(str, args)
  }

  /** The elements of a Format as the Go slice holds them. */
  function FormatItems(v: Value): seq<Value>
    requires v.Format?
  {
    [Str(v.template)] + v.fargs
  }

  /** Fmt's slice has one element more than the args: the template, then
      the args in order. */
  lemma FmtShape(str: string, args: seq<Value>)
    ensures |FormatItems(Fmt(str, args))| == 1 + |args|
    ensures FormatItems(Fmt(str, args))[0] == Str(str) && FormatItems(Fmt(str, args))[1..] == args
  {
  }
}
