/** record.go: Record, the value a Logger hands to its implementation, and
    SetArgs, which copies the call's arguments into storage the record
    owns. */
module Records {
  import opened Values
  import opened Levels

  /** inlineArgs: how many arguments a record holds without allocating. */
  const InlineArgs: nat := 10

  /** The arguments a record shows after SetArgs(args) when its inline
      array held `inline`: a copy of args when there are more than ten,
      otherwise the whole inline array with args copied over its front. */
  function ArgsAfter(args: seq<Value>, inline: seq<Value>): (r: seq<Value>)
    requires |inline| == InlineArgs
    ensures |args| > InlineArgs ==> r == args
    ensures |args| <= InlineArgs ==> |r| == InlineArgs && r[|args|..] == inline[|args|..]
    ensures |args| <= |r| && r[..|args|] == args
  {
    if |args| > InlineArgs then args else args + inline[|args|..]
  }

  /** Ten nil interfaces: the inline array of a new record. */
  function Nils(): (r: seq<Value>)
    ensures |r| == InlineArgs && forall i :: 0 <= i < |r| ==> r[i] == Nil
  {
    seq(InlineArgs, _ => Nil)
  }

  /** On a new record, SetArgs leaves the caller's arguments followed by
      nil up to ten. */
  lemma ArgsOnNewRecord(args: seq<Value>)
    ensures |args| <= InlineArgs ==> ArgsAfter(args, Nils()) == args + seq(InlineArgs - |args|, _ => Nil)
  {
    if |args| <= InlineArgs {
      var r := ArgsAfter(args, Nils());
      assert r == args + Nils()[|args|..];
      assert Nils()[|args|..] == seq(InlineArgs - |args|, _ => Nil);
    }
  }

  /** Record */
  class Record {
    var level: Level
    var msg: string
    var callerPc: nat
    const inline: array<Value>
    var args: array<Value>

    predicate Valid()
      reads this
    {
      inline.Length == InlineArgs
    }

    /** A Record literal with Level, Msg and CallerPc set: the inline array
        holds nil interfaces and Args is a nil slice. */
    constructor (level: Level, msg: string, callerPc: nat)
      ensures Valid() && fresh(inline) && fresh(args)
      ensures this.level == level && this.msg == msg && this.callerPc == callerPc
      ensures inline[..] == Nils() && args.Length == 0
    {
      this.level := level;
      this.msg := msg;
      this.callerPc := callerPc;
      inline := new Value[InlineArgs](_ => Nil);
      args := new Value[0](_ => Nil);
    }

    /** SetArgs: more than ten arguments go to a newly made slice, fewer
        are copied into the inline array, which Args then views whole. The
        caller's slice is left as it was and, unless it is this record's
        own inline array, never shared. */
    method SetArgs(a: array<Value>)
      requires Valid()
      modifies this, inline
      ensures Valid() && level == old(level) && msg == old(msg) && callerPc == old(callerPc)
      ensures args[..] == ArgsAfter(old(a[..]), old(inline[..]))
      ensures a[..] == old(a[..])
      ensures a.Length > InlineArgs ==> fresh(args)
      ensures a.Length <= InlineArgs ==> args == inline
      ensures a != inline ==> args != a
    {
      if a.Length > InlineArgs {
        var made := new Value[a.Length](_ => Nil);
        forall i | 0 <= i < a.Length {
          made[i] := a[i];
        }
        args := made;
      } else {
        forall i | 0 <= i < a.Length {
          inline[i] := a[i];
        }
        args := inline;
      }
    }
  }
}
