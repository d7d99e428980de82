/** writer.go: the buffered writer every logger line goes through, its
    colouring, and LeveledWriter, which picks an output by level. An
    io.Writer is a recording Output: each Write call adds one entry to
    `written`, and `fails` says whether it reports an error. */
module Writers {
  import opened Values
  import opened Levels

  /** An io.Writer. */
  class Output {
    var written: seq<string>
    const fails: bool

    constructor (fails: bool)
      ensures written == [] && this.fails == fails
    {
      written := [];
      this.fails := fails;
    }

    /** Write(p): records the bytes; reports whether an error came back. */
    method Write(p: string) returns (err: bool)
      modifies this
      ensures written == old(written) + [p]
      ensures err == fails
    {
      written := written + [p];
      err := fails;
    }
  }

  /** LeveledWriter: the standard output, and outputs that replace it for
      some levels. */
  class LeveledWriter {
    const standard: Output
    const overrides: map<Level, Output>

    /** NewLeveledWriter */
    constructor (standard: Output, overrides: map<Level, Output>)
      ensures this.standard == standard && this.overrides == overrides
    {
      this.standard := standard;
      this.overrides := overrides;
    }

    /** The output a level's lines go to: its override, or the standard one. */
    function Route(level: Level): (o: Output)
      ensures level in overrides ==> o == overrides[level]
      ensures level !in overrides ==> o == standard
    {
      if level in overrides then overrides[level] else standard
    }

    /** Write: always the standard output. */
    method Write(p: string) returns (err: bool)
      modifies standard
      ensures standard.written == old(standard.written) + [p]
      ensures err == standard.fails
    {
      err := standard.Write(p);
    }

    /** LevelWrite: the override for the level when there is one, else the
      standard output. */
    method LevelWrite(level: Level, p: string) returns (err: bool)
      modifies Route(level)
      ensures Route(level).written == old(Route(level).written) + [p]
      ensures err == Route(level).fails
    {
      var w: Output;
      if level in overrides {
        w := overrides[level];
      } else {
        w := standard;
      }
      err := w.Write(p);
    }
  }

  /** What a writer sends to: a plain io.Writer, or one that is also a
      LevelWriter (the LeveledWriter). */
  datatype Destination = Plain(out: Output) | Leveled(lw: LeveledWriter)

  /** The output a flush at `level` reaches. */
  function Target(d: Destination, level: Level): Output {
    match d
    case Plain(out) => out
    case Leveled(lw) => lw.Route(level)
  }

  // ---- colour ----

  /** ColorOption (logger.go). */
  type ColorOption = int
  const ColorOff: ColorOption := 0
  const AutoColor: ColorOption := 1
  const ForceColor: ColorOption := 2

  /** _levelToColor: the xterm 256-colour code of each message level. */
  const LevelToColor: map<Level, nat> :=
    map[Debug := 252, Trace := 82, Info := 27, Warn := 226, Error := 196]

  /** Each message level has its own colour, a valid 256-colour code, and
      only the message levels have one. */
  lemma ColorsDistinct()
    ensures LevelToColor.Keys == {Trace, Debug, Info, Warn, Error}
    ensures forall l :: l in LevelToColor ==> LevelToColor[l] < 256
    ensures forall l, m :: l in LevelToColor && m in LevelToColor && l != m ==> LevelToColor[l] != LevelToColor[m]
  {
  }

  /** The select-graphic-rendition sequence that sets the foreground to a
      256-colour code (ECMA-48 section 8.3.117, with the xterm 38;5 form). */
  function ColorStart(code: nat): string {
    "\U{1B}[38;5;" + Decimal(code) + "m"
  }

  /** The SGR sequence that resets all attributes. */
  const ColorReset: string := "\U{1B}[0m"

  /** newColor(code)(src) */
  function Colorize(code: nat, src: string): string {
    ColorStart(code) + src + ColorReset
  }

  /** Colouring hides nothing: the text between the start and reset
      sequences is the text given, and the sequences are recognisable. */
  lemma ColorizeRoundTrip(code: nat, src: string)
    ensures var c := Colorize(code, src);
            var k := |ColorStart(code)|;
            && k + |ColorReset| <= |c|
            && c[..k] == ColorStart(code)
            && c[k..|c| - |ColorReset|] == src
            && c[|c| - |ColorReset|..] == ColorReset
  {
    var c := Colorize(code, src);
    var k := |ColorStart(code)|;
    assert c == ColorStart(code) + (src + ColorReset);
    assert c[k..] == src + ColorReset;
    assert c[k..|c| - |ColorReset|] == c[k..][..|src|];
  }

  /** The bytes a flush hands on: the buffer, coloured for the level when
      colour is on. */
  function Shown(color: ColorOption, level: Level, msg: string): string
    requires color != ColorOff ==> level in LevelToColor
  {
    if color != ColorOff then Colorize(LevelToColor[level], msg) else msg
  }

  /** withColor: AutoColor is switched off unless standard output is a
      terminal; `terminal` is what the isatty checks report. */
  function EffectiveColor(color: ColorOption, terminal: bool): (c: ColorOption)
    ensures c == ColorOff || c == color
    ensures c == ColorOff <==> color == ColorOff || (color == AutoColor && !terminal)
  {
    if color == AutoColor && !terminal then ColorOff else color
  }

  // ---- the buffered writer ----

  /** writer: a buffer in front of an output. */
  class Writer {
    var b: string
    const w: Destination
    const color: ColorOption

    /** newWriter(out, color): an empty buffer. */
    constructor (out: Destination, color: ColorOption, terminal: bool)
      ensures b == "" && w == out && this.color == EffectiveColor(color, terminal)
    {
      b := "";
      w := out;
      this.color := EffectiveColor(color, terminal);
    }

    /** Write: appends to the buffer; the output is not touched. */
    method Write(p: string) returns (n: nat)
      modifies this
      ensures b == old(b) + p && n == |p|
    {
      b := b + p;
      n := |p|;
    }

    /** WriteByte: appends one byte to the buffer. */
    method WriteByte(c: char)
      modifies this
      ensures b == old(b) + [c]
    {
      b := b + [c];
    }

    /** WriteString: appends to the buffer. */
    method WriteString(s: string) returns (n: nat)
      modifies this
      ensures b == old(b) + s && n == |s|
    {
      b := b + s;
      n := |s|;
    }

    /** Flush: hands the whole buffer, coloured when colour is on, to the
      output the level routes to, in one write, and empties the buffer
      whether or not the write failed. With colour on the level must have a
      colour: for any other level the colour function is missing and the
      call would fail. */
    method Flush(level: Level) returns (err: bool)
      requires color != ColorOff ==> level in LevelToColor
      modifies this, Target(w, level)
      ensures b == ""
      ensures Target(w, level).written == old(Target(w, level).written) + [Shown(color, level, old(b))]
      ensures err == Target(w, level).fails
    {
      var msg := b;
      if color != ColorOff {
        msg := Colorize(LevelToColor[level], msg);
      }
      match w {
        case Leveled(lw) =>
          err := lw.LevelWrite(level, msg);
        case Plain(out) =>
          err := out.Write(msg);
      }
      b := "";
    }
  }
}
