/** adapter.go (package hclogslog): Handler, an slog.Handler that turns slog
    records into calls on an hclog Logger. The slog library itself is not
    part of this model: a record is given as its level, message and
    attributes, and a value as what its Any method returns. */
module SlogAdapter {
  import opened GoStrings
  import opened Values
  import opened Levels

  /** slog.LevelDebug, LevelInfo, LevelWarn and LevelError. */
  const SlogDebug: int := -4
  const SlogInfo: int := 0
  const SlogWarn: int := 4
  const SlogError: int := 8

  /** An slog value, already resolved: a group of attributes or any other
      value, seen as the interface value Any gives (the zero slog.Value
      gives nil). */
  datatype SlogValue = Group(attrs: seq<Attr>) | Plain(v: Value)

  /** slog.Attr */
  datatype Attr = Attr(key: string, value: SlogValue)

  /** What Handle reads of an slog.Record. */
  datatype SlogRecord = SlogRecord(level: int, message: string, attrs: seq<Attr>)

  /** The hclog Logger a handler wraps: the answers of its IsTrace..IsError
      queries and the argument lists With was called with. */
  datatype Target = Target(isTrace: bool, isDebug: bool, isInfo: bool, isWarn: bool, isError: bool,
                           withs: seq<seq<Value>>)
  {
    /** The query for one message level. */
    function Is(l: Level): bool
      requires IsMessageLevel(l)
    {
      if l == Trace then isTrace
      else if l == Debug then isDebug
      else if l == Info then isInfo
      else if l == Warn then isWarn
      else isError
    }
  }

  /** A Log call on the wrapped logger. */
  datatype LogCall = LogCall(level: Level, msg: string, args: seq<Value>)

  /** Handler */
  datatype Handler = Handler(l: Target, prefix: string)

  /** The band an slog level falls in. */
  function Band(lvl: int): (r: Level)
    ensures IsMessageLevel(r)
  {
    if lvl < SlogDebug then Trace
    else if lvl < SlogInfo then Debug
    else if lvl < SlogWarn then Info
    else if lvl < SlogError then Warn
    else Error
  }

  /** Enabled: the wrapped logger's query for the level's band. */
  function Enabled(h: Handler, lvl: int): bool {
    if lvl < SlogDebug then h.l.isTrace
    else if lvl < SlogInfo then h.l.isDebug
    else if lvl < SlogWarn then h.l.isInfo
    else if lvl < SlogError then h.l.isWarn
    else h.l.isError
  }

  /** basicTranslate */
  const BasicTranslate: map<int, Level> :=
    map[SlogDebug - 4 := Trace, SlogDebug := Debug, SlogInfo := Info, SlogWarn := Warn, SlogError := Error]

  /** translateLevel: the exact table first, the bands otherwise. */
  function TranslateLevel(lvl: int): (r: Level)
    ensures IsMessageLevel(r)
  {
    if lvl in BasicTranslate then BasicTranslate[lvl] else Band(lvl)
  }

  /** The exact table agrees with the bands, so translateLevel is the band
      function everywhere. */
  lemma TableAgreesWithBands(lvl: int)
    ensures lvl in BasicTranslate ==> BasicTranslate[lvl] == Band(lvl)
    ensures TranslateLevel(lvl) == Band(lvl)
  {
  }

  /** A higher slog level never translates to a lower hclog level. */
  lemma TranslateMonotone(a: int, b: int)
    requires a <= b
    ensures TranslateLevel(a) <= TranslateLevel(b)
  {
    TableAgreesWithBands(a);
    TableAgreesWithBands(b);
  }

  /** Enabled asks exactly the query for the level Handle logs at. */
  lemma EnabledAsksHandledLevel(h: Handler, lvl: int)
    ensures Enabled(h, lvl) == h.l.Is(TranslateLevel(lvl))
  {
    TableAgreesWithBands(lvl);
  }

  /** Pairs whose keys are strings that all begin with `prefix`. */
  predicate Paired(r: seq<Value>, prefix: string) {
    |r| % 2 == 0 && forall i :: 0 <= i < |r| && i % 2 == 0 ==> r[i].Str? && HasPrefix(r[i].s, prefix)
  }

  lemma EvenDifference(i: nat, k: nat)
    requires k <= i && i % 2 == 0 && k % 2 == 0
    ensures (i - k) % 2 == 0
  {
  }

  lemma PairedConcat(x: seq<Value>, y: seq<Value>, prefix: string)
    requires Paired(x, prefix) && Paired(y, prefix)
    ensures Paired(x + y, prefix)
  {
    forall i | 0 <= i < |x + y| && i % 2 == 0
      ensures (x + y)[i].Str? && HasPrefix((x + y)[i].s, prefix)
    {
      if i >= |x| {
        EvenDifference(i, |x|);
        assert (x + y)[i] == y[i - |x|];
      } else {
        assert (x + y)[i] == x[i];
      }
    }
  }

  lemma PairedLonger(r: seq<Value>, prefix: string, more: string)
    requires Paired(r, prefix + more)
    ensures Paired(r, prefix)
  {
    forall i | 0 <= i < |r| && i % 2 == 0
      ensures r[i].Str? && HasPrefix(r[i].s, prefix)
    {
      PrefixShorter(r[i].s, prefix, more);
    }
  }

  /** processAttr: a group is flattened; a value with an empty key is
      dropped when it is the zero value and otherwise keyed by its position;
      every other value gives one pair with the prefixed key. */
  function ProcessAttr(pos: nat, prefix: string, a: Attr): (r: seq<Value>)
    decreases a, 1
    ensures Paired(r, prefix)
  {
    if a.value.Group? then ProcessGroup(prefix, a)
    else if a.key == "" && a.value.v == Nil then []
    else
      var key := if a.key == "" then Decimal(pos) else a.key;
      PrefixOfConcat(prefix, key);
      [Str(prefix + key), a.value.v]
  }

  /** processGroup: a group without a name gives its non-group members at
      the current prefix; a named group extends the prefix with its name
      and a dot and processes every member. */
  function ProcessGroup(prefix: string, a: Attr): (r: seq<Value>)
    requires a.value.Group?
    decreases a, 0
    ensures Paired(r, prefix)
  {
    if a.key == "" then Inlined(prefix, a.value.attrs, |a.value.attrs|)
    else
      var r := Items(prefix + a.key + ".", a.value.attrs, |a.value.attrs|);
      PairedLonger(r, prefix, a.key + ".");
      r
  }

  /** The pairs of attrs[..n], each processed at its position. */
  function Items(prefix: string, attrs: seq<Attr>, n: nat): (r: seq<Value>)
    requires n <= |attrs|
    decreases attrs, n
    ensures Paired(r, prefix)
  {
    if n == 0 then []
    else
      var x := Items(prefix, attrs, n - 1);
      var y := ProcessAttr(n - 1, prefix, attrs[n - 1]);
      PairedConcat(x, y, prefix);
      x + y
  }

  /** The pairs of the non-group members among attrs[..n], keyed as they
      are. */
  function Inlined(prefix: string, attrs: seq<Attr>, n: nat): (r: seq<Value>)
    requires n <= |attrs|
    ensures Paired(r, prefix)
  {
    if n == 0 then []
    else
      var x := Inlined(prefix, attrs, n - 1);
      var a := attrs[n - 1];
      if a.value.Group? then x
      else
        PrefixOfConcat(prefix, a.key);
        PairedConcat(x, [Str(prefix + a.key), a.value.v], prefix);
        x + [Str(prefix + a.key), a.value.v]
  }

  /** Handle: every attribute of the record processed at its position, and
      one Log call on the wrapped logger at the translated level. Every key
      it passes is a string beginning with the handler's prefix. */
  method Handle(h: Handler, rec: SlogRecord) returns (call: LogCall, err: Option<string>)
    ensures call == LogCall(TranslateLevel(rec.level), rec.message, Items(h.prefix, rec.attrs, |rec.attrs|))
    ensures Paired(call.args, h.prefix) && err == None
  {
    var attrs: seq<Value> := [];
    var cnt := 0;
    while cnt < |rec.attrs|
      invariant 0 <= cnt <= |rec.attrs|
      invariant attrs == Items(h.prefix, rec.attrs, cnt)
    {
      attrs := attrs + ProcessAttr(cnt, h.prefix, rec.attrs[cnt]);
      cnt := cnt + 1;
    }
    call := LogCall(TranslateLevel(rec.level), rec.message, attrs);
    err := None;
  }

  /** The wrapped logger after With(args). */
  function WithArgs(l: Target, args: seq<Value>): (r: Target)
    ensures r.withs == l.withs + [args]
    ensures r.isTrace == l.isTrace && r.isDebug == l.isDebug && r.isInfo == l.isInfo
    ensures r.isWarn == l.isWarn && r.isError == l.isError
  {
    l.(withs := l.withs + [args])
  }

  /** WithAttrs: the attributes processed as Handle processes a record's,
      passed to the wrapped logger's With; the prefix is kept. */
  method WithAttrs(h: Handler, attrs: seq<Attr>) returns (sub: Handler)
    ensures sub == Handler(WithArgs(h.l, Items(h.prefix, attrs, |attrs|)), h.prefix)
    ensures Paired(sub.l.withs[|sub.l.withs| - 1], h.prefix)
  {
    var args: seq<Value> := [];
    var i := 0;
    while i < |attrs|
      invariant 0 <= i <= |attrs|
      invariant args == Items(h.prefix, attrs, i)
    {
      args := args + ProcessAttr(i, h.prefix, attrs[i]);
      i := i + 1;
    }
    sub := Handler(WithArgs(h.l, args), h.prefix);
  }

  /** WithGroup: an empty name leaves the handler as it is; any other name
      is appended to the prefix with a dot. */
  function WithGroup(h: Handler, name: string): (r: Handler)
    ensures r.l == h.l
    ensures name == "" ==> r == h
    ensures name != "" ==> HasPrefix(r.prefix, h.prefix + name) && |r.prefix| == |h.prefix| + |name| + 1
  {
    var prefix := if name != "" then h.prefix + name + "." else h.prefix;
    PrefixOfConcat(h.prefix + name, ".");
    Handler(h.l, prefix)
  }

  /** A record's attributes under WithGroup(name) give what the same
      attributes give as one group named `name`: the behaviour slog asks
      of a handler's WithGroup. */
  lemma WithGroupIsGroup(h: Handler, name: string, attrs: seq<Attr>, pos: nat)
    requires name != ""
    ensures Items(WithGroup(h, name).prefix, attrs, |attrs|) == ProcessAttr(pos, h.prefix, Attr(name, Group(attrs)))
  {
  }

  /** A named group with no members gives nothing. */
  lemma EmptyGroupVanishes(pos: nat, prefix: string, key: string)
    ensures ProcessAttr(pos, prefix, Attr(key, Group([]))) == []
  {
    var a := Attr(key, Group([]));
    assert |a.value.attrs| == 0;
    assert ProcessAttr(pos, prefix, a) == ProcessGroup(prefix, a);
  }

  /** Every key from a named group begins with the prefix, the group's name
      and a dot. */
  lemma GroupQualifies(pos: nat, prefix: string, a: Attr)
    requires a.value.Group? && a.key != ""
    ensures Paired(ProcessAttr(pos, prefix, a), prefix + a.key + ".")
  {
  }

  /** How many members of attrs[..n] are not groups. */
  function PlainCount(attrs: seq<Attr>, n: nat): nat
    requires n <= |attrs|
  {
    if n == 0 then 0 else PlainCount(attrs, n - 1) + (if attrs[n - 1].value.Group? then 0 else 1)
  }

  /** An unnamed group keeps one pair per non-group member and drops its
      nested groups. */
  lemma {:induction false} InlinedKeepsPlain(prefix: string, attrs: seq<Attr>, n: nat)
    requires n <= |attrs|
    ensures |Inlined(prefix, attrs, n)| == 2 * PlainCount(attrs, n)
  {
    if n > 0 {
      InlinedKeepsPlain(prefix, attrs, n - 1);
    }
  }

  /** An unnamed group gives the pairs its members give at the top level
      when none of them is a group and no key is empty or paired with the
      zero value. */
  lemma {:induction false} InlinedLikeTopLevel(prefix: string, attrs: seq<Attr>, n: nat)
    requires n <= |attrs|
    requires forall i :: 0 <= i < n ==> attrs[i].value.Plain? && attrs[i].key != ""
    ensures Inlined(prefix, attrs, n) == Items(prefix, attrs, n)
  {
    if n > 0 {
      InlinedLikeTopLevel(prefix, attrs, n - 1);
    }
  }
}
