/** stdslog.go: stdslogWrapper, an hclog Logger over a standard library
    *slog.Logger. The slog library is not part of this model: an slog
    logger is represented by the logger it started from and the WithGroup
    and With derivations applied to it since. */
module StdSlog {
  import opened GoStrings
  import opened Values
  import opened Levels

  /** SlogLevelTrace (slog.LevelDebug - 4) and SlogLevelOff
      (slog.LevelError + 4). */
  const SlogTrace: int := -8
  const SlogOff: int := 12

  /** levelMapToSlog */
  const LevelMapToSlog: map<Level, int> :=
    map[Off := SlogOff, Error := 8, Warn := 4, Info := 0, Debug := -4, Trace := SlogTrace]

  /** levelMapFromSlog */
  const LevelMapFromSlog: map<int, Level> :=
    map[SlogOff := Off, 8 := Error, 4 := Warn, 0 := Info, -4 := Debug, SlogTrace := Trace]

  /** Indexing levelMapToSlog: a missing level reads as the zero slog
      level, which is slog's Info. */
  function ToSlog(l: Level): int {
    if l in LevelMapToSlog then LevelMapToSlog[l] else 0
  }

  /** Indexing levelMapFromSlog: a missing slog level reads as NoLevel. */
  function FromSlog(s: int): Level {
    if s in LevelMapFromSlog then LevelMapFromSlog[s] else NoLevel
  }

  /** The two maps are inverse bijections between Trace..Off and the six
      slog levels. */
  lemma MapsInverse()
    ensures forall l :: l in LevelMapToSlog <==> Trace <= l <= Off
    ensures forall l :: l in LevelMapToSlog ==> LevelMapToSlog[l] in LevelMapFromSlog && LevelMapFromSlog[LevelMapToSlog[l]] == l
    ensures forall s :: s in LevelMapFromSlog ==> LevelMapFromSlog[s] in LevelMapToSlog && LevelMapToSlog[LevelMapFromSlog[s]] == s
  {
  }

  /** The translation keeps the order of the levels. */
  lemma ToSlogMonotone(a: Level, b: Level)
    requires Trace <= a <= b <= Off
    ensures ToSlog(a) <= ToSlog(b)
    ensures a < b ==> ToSlog(a) < ToSlog(b)
  {
  }

  /** Every level outside Trace..Off, NoLevel among them, goes to slog as
      Info, which reads back as Info. */
  lemma UnmappedAsInfo(l: Level)
    requires !(Trace <= l <= Off)
    ensures ToSlog(l) == 0 && FromSlog(ToSlog(l)) == Info
  {
  }

  /** A derivation of an slog logger. */
  datatype SlogStep = WithGroupStep(name: string) | WithStep(args: seq<Value>)

  /** An *slog.Logger: the logger it started from and what was applied. */
  datatype SlogLogger = SlogLogger(origin: nat, steps: seq<SlogStep>)

  function SlogWithGroup(l: SlogLogger, name: string): SlogLogger {
    l.(steps := l.steps + [WithGroupStep(name)])
  }

  function SlogWith(l: SlogLogger, args: seq<Value>): SlogLogger {
    l.(steps := l.steps + [WithStep(args)])
  }

  /** The group names among `steps`, in order. */
  function GroupNames(steps: seq<SlogStep>): seq<string> {
    if steps == [] then []
    else
      var last := steps[|steps| - 1];
      GroupNames(steps[..|steps| - 1]) + (if last.WithGroupStep? then [last.name] else [])
  }

  lemma GroupNamesSnoc(steps: seq<SlogStep>, s: SlogStep)
    ensures GroupNames(steps + [s]) == GroupNames(steps) + (if s.WithGroupStep? then [s.name] else [])
  {
    assert (steps + [s])[..|steps|] == steps;
  }

  /** *slog.LevelVar */
  class LevelVar {
    var level: int

    constructor (level: int)
      ensures this.level == level
    {
      this.level := level;
    }
  }

  /** stdslogWrapper */
  datatype Wrapper = Wrapper(slog: SlogLogger, oriSlog: Option<SlogLogger>, lvar: Option<LevelVar>,
                             names: seq<string>, args: seq<Value>)

  /** What every wrapper the package builds satisfies: oriSlog is kept
      exactly while there are names, and the slog logger is oriSlog with
      one group per name added, in order. */
  predicate Valid(w: Wrapper) {
    (|w.names| > 0 <==> w.oriSlog.Some?)
    && (w.oriSlog.Some? ==>
          w.oriSlog.value.origin == w.slog.origin
          && w.oriSlog.value.steps <= w.slog.steps
          && GroupNames(w.slog.steps[|w.oriSlog.value.steps|..]) == w.names)
  }

  /** FromStandardSLogger */
  function FromStandardSLogger(l: SlogLogger, lvar: Option<LevelVar>): (w: Wrapper)
    ensures Valid(w) && w.names == [] && w.args == [] && w.lvar == lvar
  {
    Wrapper(l, None, lvar, [], [])
  }

  /** clone: copies of the slog loggers, names and args; the level
      variable is not carried over. */
  function Clone(w: Wrapper): (c: Wrapper)
    ensures c.lvar.None?
    ensures c.slog == w.slog && c.oriSlog == w.oriSlog && c.names == w.names && c.args == w.args
  {
    Wrapper(w.slog, w.oriSlog, None, w.names, w.args)
  }

  /** Name */
  function Name(w: Wrapper): string {
    Join(w.names, ".")
  }

  /** Named: the first name keeps the slog logger it replaces as oriSlog;
      the name is appended and becomes a group of the slog logger. */
  function Named(w: Wrapper, name: string): (r: Wrapper)
    ensures Valid(w) ==> Valid(r)
    ensures r.lvar.None?
    ensures r.names == w.names + [name] && r.args == w.args
    ensures r.slog == SlogWithGroup(w.slog, name)
  {
    var sl := Clone(w);
    var sl := if |w.names| == 0 then sl.(oriSlog := Some(sl.slog)) else sl;
    var r := sl.(names := sl.names + [name], slog := SlogWithGroup(w.slog, name));
    if Valid(w) then
      var ori := r.oriSlog.value;
      GroupNamesSnoc(w.slog.steps[|ori.steps|..], WithGroupStep(name));
      assert r.slog.steps[|ori.steps|..] == w.slog.steps[|ori.steps|..] + [WithGroupStep(name)];
      r
    else r
  }

  /** The wrapper with its names dropped and the slog logger from before the
      first of them. */
  function Unnamed(w: Wrapper): (r: Wrapper)
    requires Valid(w) && |w.names| > 0
    ensures Valid(r) && r.names == [] && r.args == w.args && r.lvar == w.lvar
  {
    w.(names := [], slog := w.oriSlog.value, oriSlog := None)
  }

  /** ResetNamed: an empty name clears the names, a non-empty one replaces
      them with itself. */
  function ResetNamed(w: Wrapper, name: string): (r: Wrapper)
    requires Valid(w)
    ensures Valid(r) && r.lvar.None? && r.args == w.args
    ensures r.names == if name == "" then [] else [name]
  {
    var sl := Clone(w);
    if name == "" then
      if |sl.names| == 0 then sl else Unnamed(sl)
    else if |sl.names| == 0 then Named(sl, name)
    else Named(Unnamed(sl), name)
  }

  /** With: the args are appended to a copy of the implied args and given
      to the slog logger. */
  function With(w: Wrapper, args: seq<Value>): (r: Wrapper)
    ensures Valid(w) ==> Valid(r)
    ensures r.lvar.None?
    ensures r.args == w.args + args && r.names == w.names
    ensures r.slog == SlogWith(w.slog, args)
  {
    var sl := Clone(w);
    var r := sl.(slog := SlogWith(w.slog, args), args := sl.args + args);
    if Valid(w) && r.oriSlog.Some? then
      var ori := r.oriSlog.value;
      GroupNamesSnoc(w.slog.steps[|ori.steps|..], WithStep(args));
      assert r.slog.steps[|ori.steps|..] == w.slog.steps[|ori.steps|..] + [WithStep(args)];
      r
    else r
  }

  /** ImpliedArgs */
  function ImpliedArgs(w: Wrapper): seq<Value> {
    w.args
  }

  /** SetLevel: sets the level variable when there is one and does nothing
      otherwise. */
  method SetLevel(w: Wrapper, level: Level)
    modifies if w.lvar.Some? then {w.lvar.value} else {}
    ensures w.lvar.Some? ==> w.lvar.value.level == ToSlog(level)
  {
    if w.lvar.Some? {
      w.lvar.value.level := ToSlog(level);
    }
  }

  /** GetLevel, given the level the enumeration of slog levels would find
      when there is no level variable. */
  function GetLevel(w: Wrapper, lowest: Level): Level
    reads if w.lvar.Some? then {w.lvar.value} else {}
  {
    if w.lvar.None? then lowest else FromSlog(w.lvar.value.level)
  }

  // ---- properties ----

  lemma {:induction false} JoinSnoc(parts: seq<string>, s: string, sep: string)
    ensures Join(parts + [s], sep) == if parts == [] then s else Join(parts, sep) + sep + s
  {
    if |parts| == 0 {
      assert parts + [s] == [s];
    } else if |parts| == 1 {
      assert (parts + [s])[1..] == [s];
    } else {
      assert (parts + [s])[1..] == parts[1..] + [s];
      JoinSnoc(parts[1..], s, sep);
    }
  }

  /** Named(n) names the wrapper with its parent's name, a dot and n; or
      just n when the parent has no name. */
  lemma NameOfNamed(w: Wrapper, name: string)
    ensures Name(Named(w, name)) == if w.names == [] then name else Name(w) + "." + name
  {
    JoinSnoc(w.names, name, ".");
  }

  /** ResetNamed(n) leaves the name n, whatever it was before. */
  lemma NameOfResetNamed(w: Wrapper, name: string)
    requires Valid(w)
    ensures Name(ResetNamed(w, name)) == name
  {
  }

  /** For every level from Trace to Off, the slog level SetLevel stores
      reads back through GetLevel as that level. */
  lemma LevelRoundTrip(level: Level)
    requires Trace <= level <= Off
    ensures FromSlog(ToSlog(level)) == level
  {
    MapsInverse();
  }

  /** A level SetLevel stored in the level variable is the level GetLevel
      reports, whatever the enumeration would find. */
  lemma SetLevelReadsBack(w: Wrapper, level: Level, lowest: Level)
    requires w.lvar.Some? && w.lvar.value.level == ToSlog(level) && Trace <= level <= Off
    ensures GetLevel(w, lowest) == level
  {
    LevelRoundTrip(level);
  }

  /** Clearing the name of a wrapper named once gives back the slog logger
      it was named from. */
  lemma ResetNamedEmptyRestores(w: Wrapper, name: string)
    requires Valid(w) && w.names == []
    ensures ResetNamed(Named(w, name), "").slog == w.slog
    ensures ResetNamed(Named(w, name), "").names == []
  {
  }

  /** A derived wrapper never holds the level variable, so SetLevel on it
      changes nothing. */
  lemma DerivedIgnoresSetLevel(w: Wrapper, name: string, args: seq<Value>)
    requires Valid(w)
    ensures Named(w, name).lvar.None? && ResetNamed(w, name).lvar.None? && With(w, args).lvar.None?
  {
  }
}
