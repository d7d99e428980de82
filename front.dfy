/** value.go: Logger, the concrete front end that gates a call on its level
    and hands a Record to a LogImpl. */
module Front {
  import opened Values
  import opened Levels
  import opened Records

  /** A call a LogImpl received, with the record's arguments as it saw
      them. */
  datatype Received = Received(level: Level, msg: string, callerPc: nat, args: seq<Value>)

  /** How an implementation was derived from the one it came from. */
  datatype Derivation = NamedAs(name: string) | ResetNamedAs(name: string) | WithArgs(args: seq<Value>)

  /** What the implementations derived from one root share: the level and
      the calls received. */
  class Shared {
    var level: Level
    var received: seq<Received>

    constructor (level: Level)
      ensures this.level == level && received == []
    {
      this.level := level;
      received := [];
    }
  }

  /** LogImpl. Its implementations are not part of this model: this one
      records the calls it receives and the derivations that made it, and
      shares its level and its record of calls with every implementation
      derived from it. */
  class Impl {
    const shared: Shared
    const path: seq<Derivation>

    constructor (shared: Shared, path: seq<Derivation>)
      ensures this.shared == shared && this.path == path
    {
      this.shared := shared;
      this.path := path;
    }

    function Level(): Level
      reads shared
    {
      shared.level
    }

    method LogRecord(r: Record)
      modifies shared
      ensures shared.level == old(shared.level)
      ensures shared.received == old(shared.received) + [Received(r.level, r.msg, r.callerPc, r.args[..])]
    {
      shared.received := shared.received + [Received(r.level, r.msg, r.callerPc, r.args[..])];
    }

    method SetLevel(level: Level)
      modifies shared
      ensures shared.level == level && shared.received == old(shared.received)
    {
      shared.level := level;
    }

    /** Named, ResetNamed and With of the implementation. */
    method Derive(d: Derivation) returns (sub: Impl)
      ensures fresh(sub) && sub.shared == shared && sub.path == path + [d]
    {
      sub := new Impl(shared, path + [d]);
    }
  }

  /** Logger */
  datatype Logger = Logger(impl: Impl) {

    /** The level gate of log: Off is never logged, nor anything below the
        implementation's level. */
    predicate Passes(level: Level)
      reads impl.shared
    {
      level != Off && level >= impl.Level()
    }

    /** log: gated calls reach the implementation not at all; the others
        reach it exactly once, as a new record whose arguments SetArgs
        copied. */
    method Log(level: Level, msg: string, args: array<Value>, callerPc: nat)
      modifies impl.shared
      ensures impl.shared.level == old(impl.shared.level)
      ensures !old(Passes(level)) ==> impl.shared.received == old(impl.shared.received)
      ensures old(Passes(level)) ==>
                impl.shared.received == old(impl.shared.received) + [Received(level, msg, callerPc, ArgsAfter(args[..], Nils()))]
    {
      if level == Off || level < impl.Level() {
        return;
      }
      var r := new Record(level, msg, callerPc);
      r.SetArgs(args);
      impl.LogRecord(r);
    }

    function IsTrace(): bool reads impl.shared { Level() <= Trace }
    function IsDebug(): bool reads impl.shared { Level() <= Debug }
    function IsInfo(): bool reads impl.shared { Level() <= Info }
    function IsWarn(): bool reads impl.shared { Level() <= Warn }
    function IsError(): bool reads impl.shared { Level() <= Error }

    /** Each query says whether a call at its level would pass the gate. */
    lemma QueriesMatchGate()
      ensures IsTrace() == Passes(Trace) && IsDebug() == Passes(Debug) && IsInfo() == Passes(Info)
      ensures IsWarn() == Passes(Warn) && IsError() == Passes(Error)
    {
    }

    /** The queries are nested: a logger that would log at one level logs
        at every higher one. */
    lemma QueriesNested()
      ensures (IsTrace() ==> IsDebug()) && (IsDebug() ==> IsInfo())
      ensures (IsInfo() ==> IsWarn()) && (IsWarn() ==> IsError())
    {
    }

    method Named(name: string) returns (sub: Logger)
      ensures fresh(sub.impl) && sub.impl.shared == impl.shared && sub.impl.path == impl.path + [NamedAs(name)]
    {
      var d := impl.Derive(NamedAs(name));
      sub := Logger(d);
    }

    method ResetNamed(name: string) returns (sub: Logger)
      ensures fresh(sub.impl) && sub.impl.shared == impl.shared && sub.impl.path == impl.path + [ResetNamedAs(name)]
    {
      var d := impl.Derive(ResetNamedAs(name));
      sub := Logger(d);
    }

    method With(args: seq<Value>) returns (sub: Logger)
      ensures fresh(sub.impl) && sub.impl.shared == impl.shared && sub.impl.path == impl.path + [WithArgs(args)]
    {
      var d := impl.Derive(WithArgs(args));
      sub := Logger(d);
    }

    method SetLevel(level: Level)
      modifies impl.shared
      ensures impl.shared.level == level && impl.shared.received == old(impl.shared.received)
    {
      impl.SetLevel(level);
    }

    function Level(): Level
      reads impl.shared
    {
      impl.Level()
    }
  }
}
