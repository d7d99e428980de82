/** interceptlogger.go: a logger that also hands every call to registered
    sinks. Copies made by NamedIntercept, ResetNamedIntercept and With
    share the sink registry (the Sinks map and the sinkCount counter) and
    differ only in the embedded logger. */
module Intercept {
  import opened Values
  import opened Levels
  import opened Writers
  import opened Implied
  import opened IntLogger

  /** One call a sink was given: name, level, message and arguments. */
  datatype Call = Call(name: string, level: Level, msg: string, args: seq<Value>)

  /** A SinkAdapter: keeps every call handed to Accept. */
  class Sink {
    var accepted: seq<Call>

    constructor ()
      ensures accepted == []
    {
      accepted := [];
    }

    method Accept(name: string, level: Level, msg: string, args: seq<Value>)
      modifies this
      ensures accepted == old(accepted) + [Call(name, level, msg, args)]
    {
      accepted := accepted + [Call(name, level, msg, args)];
    }
  }

  /** The registry's contents: the sink set and the counter, which are
      updated independently of each other. */
  datatype Registration = Registration(sinks: set<Sink>, count: int)

  /** RegisterSink: inserts (a no-op on the set when already present) and
      counts up in every case. */
  function Register(r: Registration, s: Sink): Registration {
    Registration(r.sinks + {s}, r.count + 1)
  }

  /** DeregisterSink: deletes (a no-op when absent) and counts down in
      every case. */
  function Deregister(r: Registration, s: Sink): Registration {
    Registration(r.sinks - {s}, r.count - 1)
  }

  /** The sinks a log call visits: none while the counter is zero,
      otherwise every sink in the set. */
  function Receivers(r: Registration): (rs: set<Sink>)
    ensures rs <= r.sinks
    ensures r.count != 0 ==> rs == r.sinks
  {
    if r.count == 0 then {} else r.sinks
  }

  /** A sequence of registry calls. */
  datatype Op = Reg(s: Sink) | Dereg(s: Sink)

  function Apply(r: Registration, ops: seq<Op>): Registration {
    if |ops| == 0 then r
    else
      var last := ops[|ops| - 1];
      var before := Apply(r, ops[..|ops| - 1]);
      if last.Reg? then Register(before, last.s) else Deregister(before, last.s)
  }

  function Registrations(ops: seq<Op>): nat {
    if |ops| == 0 then 0 else Registrations(ops[..|ops| - 1]) + (if ops[|ops| - 1].Reg? then 1 else 0)
  }

  function Deregistrations(ops: seq<Op>): nat {
    if |ops| == 0 then 0 else Deregistrations(ops[..|ops| - 1]) + (if ops[|ops| - 1].Dereg? then 1 else 0)
  }

  /** The counter is the number of registrations less the number of
      deregistrations, whatever sinks they named; it is not the size of the
      set. */
  lemma {:induction false} CountIsNetCalls(r: Registration, ops: seq<Op>)
    ensures Apply(r, ops).count == r.count + Registrations(ops) - Deregistrations(ops)
  {
    if |ops| > 0 {
      CountIsNetCalls(r, ops[..|ops| - 1]);
    }
  }

  /** Call `i` is the last one that names `s`. */
  predicate LastNaming(ops: seq<Op>, s: Sink, i: int) {
    0 <= i < |ops| && ops[i].s == s && forall j :: i < j < |ops| ==> ops[j].s != s
  }

  /** No call names `s`. */
  predicate Untouched(ops: seq<Op>, s: Sink) {
    forall j :: 0 <= j < |ops| ==> ops[j].s != s
  }

  /** A sink is in the set exactly when the last call naming it registered
      it, or, with no call naming it, when it was there at the start. */
  lemma {:induction false} MembershipIsLastCall(r: Registration, ops: seq<Op>, s: Sink)
    ensures s in Apply(r, ops).sinks <==>
            (exists i :: LastNaming(ops, s, i) && ops[i].Reg?) || (s in r.sinks && Untouched(ops, s))
  {
    if |ops| > 0 {
      var init := ops[..|ops| - 1];
      var n := |ops| - 1;
      MembershipIsLastCall(r, init, s);
      if ops[n].s == s {
        assert LastNaming(ops, s, n);
        assert forall i :: LastNaming(ops, s, i) ==> i == n;
      } else {
        LastNamingInit(ops, s);
      }
    }
  }

  /** Dropping a last call that names another sink changes neither
      predicate. */
  lemma LastNamingInit(ops: seq<Op>, s: Sink)
    requires |ops| > 0 && ops[|ops| - 1].s != s
    ensures forall i :: LastNaming(ops, s, i) <==> LastNaming(ops[..|ops| - 1], s, i)
    ensures Untouched(ops, s) <==> Untouched(ops[..|ops| - 1], s)
  {
  }

  /** Registering and then deregistering a sink restores the counter and
      leaves the sink out of the set. */
  lemma RegisterDeregister(r: Registration, s: Sink)
    ensures Deregister(Register(r, s), s) == Registration(r.sinks - {s}, r.count)
  {
  }

  /** A deregistered sink is visited by no later log call. */
  lemma DeregisteredNotVisited(r: Registration, s: Sink)
    ensures s !in Receivers(Deregister(r, s))
  {
  }

  /** Deregistering a sink that was never registered and then registering
      another leaves the counter at zero, so the registered sink is in the
      set yet no log call visits it. */
  lemma StrayDeregisterSilences(a: Sink, b: Sink)
    ensures var r := Register(Deregister(Registration({}, 0), b), a);
            a in r.sinks && Receivers(r) == {}
  {
  }

  /** The `for s := range i.Sinks` loop: every sink of the set accepts the
      call once, in some order. */
  method Notify(sinks: set<Sink>, name: string, lvl: Level, msg: string, args: seq<Value>)
    modifies sinks
    ensures forall s :: s in sinks ==> s.accepted == old(s.accepted) + [Call(name, lvl, msg, args)]
  {
    var remaining := sinks;
    while remaining != {}
      invariant remaining <= sinks
      invariant forall s :: s in sinks && s !in remaining ==> s.accepted == old(s.accepted) + [Call(name, lvl, msg, args)]
      invariant forall s :: s in remaining ==> s.accepted == old(s.accepted)
      decreases |remaining|
    {
      var s :| s in remaining;
      s.Accept(name, lvl, msg, args);
      remaining := remaining - {s};
    }
  }

  /** The shared Sinks map and sinkCount counter. */
  class Registry {
    var sinks: set<Sink>
    var count: int

    constructor ()
      ensures sinks == {} && count == 0
    {
      sinks := {};
      count := 0;
    }

    function State(): Registration
      reads this
    {
      Registration(sinks, count)
    }
  }

  /** interceptLogger */
  class InterceptLogger {
    const root: Logger
    const registry: Registry

    /** NewInterceptLogger: a logger from newLogger and an empty registry. */
    constructor New(opts: Option<LoggerOptions>, empty: LoggerOptions, defaultOutput: Destination,
                    terminal: bool, p: Printer)
      requires empty.name == "" && empty.level == NoLevel && empty.output == None
      requires !empty.jsonFormat && empty.color == ColorOff && empty.exclude == None
      ensures fresh(root) && fresh(root.level) && fresh(root.writer) && fresh(registry)
      ensures root.Valid() && root.implied == []
      ensures registry.State() == Registration({}, 0)
    {
      root := new Logger.New(opts, empty, defaultOutput, terminal, p);
      registry := new Registry();
    }

    constructor Sub(root: Logger, registry: Registry)
      ensures this.root == root && this.registry == registry
    {
      this.root := root;
      this.registry := registry;
    }

    /** retrieveImplied: a new sequence holding the embedded logger's
      implied arguments followed by the call's arguments. */
    function RetrieveImplied(args: seq<Value>): (cp: seq<Value>)
      ensures |cp| == |root.implied| + |args|
      ensures cp[..|root.implied|] == root.implied && cp[|root.implied|..] == args
    {
      root.implied + args
    }

    /** log: the embedded logger first, as for any logger; then, unless the
      counter is zero, every registered sink gets the call with the
      embedded logger's name and its implied arguments prefixed, whatever
      the embedded logger's threshold. */
    method Log(lvl: Level, msg: string, args: seq<Value>, t: Moment, site: Option<CallSite>)
      requires root.Emits(lvl, msg, args) && root.writer.color != ColorOff ==> lvl in LevelToColor
      modifies root.writer, Target(root.writer.w, lvl), registry.sinks
      ensures !root.Emits(lvl, msg, args) ==> unchanged(root.writer, Target(root.writer.w, lvl))
      ensures root.Emits(lvl, msg, args) ==>
                && root.writer.b == ""
                && Target(root.writer.w, lvl).written == old(Target(root.writer.w, lvl).written) +
                     [Shown(root.writer.color, lvl, old(root.writer.b) + root.formatter(t, site, root.name, lvl, msg, root.implied + args))]
      ensures forall s :: s in Receivers(registry.State()) ==>
                s.accepted == old(s.accepted) + [Call(root.name, lvl, msg, RetrieveImplied(args))]
      ensures forall s :: s in registry.sinks && s !in Receivers(registry.State()) ==> unchanged(s)
    {
      root.Log(lvl, msg, args, t, site);
      if registry.count == 0 {
        return;
      }
      Notify(registry.sinks, root.name, lvl, msg, RetrieveImplied(args));
    }

    /** NamedIntercept: a copy whose embedded logger is the embedded
      logger's Named child; the registry is shared. */
    method NamedIntercept(n: string) returns (sub: InterceptLogger)
      ensures fresh(sub) && fresh(sub.root) && sub.registry == registry
      ensures sub.root.name == (if root.name != "" then root.name + "." + n else n)
      ensures sub.root.level == root.level && sub.root.writer == root.writer && sub.root.implied == root.implied
    {
      var child := root.Named(n);
      sub := new InterceptLogger.Sub(child, registry);
    }

    /** ResetNamedIntercept: as NamedIntercept with ResetNamed. */
    method ResetNamedIntercept(n: string) returns (sub: InterceptLogger)
      ensures fresh(sub) && fresh(sub.root) && sub.registry == registry
      ensures sub.root.name == n
      ensures sub.root.level == root.level && sub.root.writer == root.writer && sub.root.implied == root.implied
    {
      var child := root.ResetNamed(n);
      sub := new InterceptLogger.Sub(child, registry);
    }

    /** With: as NamedIntercept with With. */
    method With(args: seq<Value>) returns (sub: InterceptLogger)
      requires root.Valid()
      requires StringKeys(if |args| % 2 != 0 then args[..|args| - 1] else args)
      ensures fresh(sub) && fresh(sub.root) && sub.registry == registry
      ensures sub.root.implied == WithImplied(root.implied, args) && sub.root.name == root.name
      ensures sub.root.level == root.level && sub.root.writer == root.writer
    {
      var child := root.With(args);
      sub := new InterceptLogger.Sub(child, registry);
    }

    method RegisterSink(s: Sink)
      modifies registry
      ensures registry.State() == Register(old(registry.State()), s)
    {
      registry.sinks := registry.sinks + {s};
      registry.count := registry.count + 1;
    }

    method DeregisterSink(s: Sink)
      modifies registry
      ensures registry.State() == Deregister(old(registry.State()), s)
    {
      registry.sinks := registry.sinks - {s};
      registry.count := registry.count - 1;
    }

    /** ResetOutput: the embedded logger can reset its output, so the call
      is passed on. */
    method ResetOutput(opts: LoggerOptions, terminal: bool) returns (err: Option<string>)
      modifies root
      ensures opts.output.None? ==> err == Some("given output is nil") && root.writer == old(root.writer)
      ensures opts.output.Some? ==>
                && err == None && fresh(root.writer) && root.writer.b == ""
                && root.writer.w == opts.output.value && root.writer.color == EffectiveColor(opts.color, terminal)
    {
      err := root.ResetOutput(opts, terminal);
    }

    /** ResetOutputWithFlush: passed on to the embedded logger. */
    method ResetOutputWithFlush(opts: LoggerOptions, flushable: Option<Flushable>, terminal: bool)
      returns (err: Option<string>)
      modifies root, if flushable.Some? then {flushable.value} else {}
      ensures opts.output.None? ==> err == Some("given output is nil") && root.writer == old(root.writer)
      ensures opts.output.Some? && flushable.None? ==> err == Some("flushable is nil") && root.writer == old(root.writer)
      ensures opts.output.Some? && flushable.Some? && flushable.value.failure.Some? ==>
                err == flushable.value.failure && root.writer == old(root.writer)
      ensures opts.output.Some? && flushable.Some? && flushable.value.failure.None? ==>
                && err == None && fresh(root.writer) && root.writer.b == ""
                && root.writer.w == opts.output.value && root.writer.color == EffectiveColor(opts.color, terminal)
    {
      err := root.ResetOutputWithFlush(opts, flushable, terminal);
    }
  }
}
