/** stdlog.go (of the older `package log`, beside int.go): stdlogAdapter,
    the io.Writer a standard library *log.Logger writes through. It trims
    the line and logs it at Info, or, when asked to infer levels, at the
    level its "[DEBUG]"-style tag names, with the tag cut off. */
module StdLog {
  import opened GoStrings
  import opened Values
  import opened Levels
  import LegacyLog

  /** What pickLevel returns, or the run-time panic of a slice expression
      that runs past the end of the string. */
  datatype Pick = Pick(level: Level, msg: string) | OutOfRange

  /** str[k:] with the tag cut off and the rest trimmed; out of range when
      the string is shorter than `k`. */
  function After(str: string, k: nat, level: Level): (r: Pick)
    ensures |str| < k <==> r.OutOfRange?
    ensures r.Pick? ==> r == Pick(level, TrimSpace(str[k..]))
  {
    if |str| < k then OutOfRange else Pick(level, TrimSpace(str[k..]))
  }

  /** pickLevel as written: "[WARN]", six characters, cuts seven. Every
      line it reads gets a message level, and on every line not opening
      with "[WARN]" it reads as the corrected version does. */
  function PickLevel(str: string): (r: Pick)
    ensures r.Pick? ==> IsMessageLevel(r.level)
    ensures !HasPrefix(str, "[WARN]") ==> r == PickLevelFixed(str)
  {
    if HasPrefix(str, "[DEBUG]") then After(str, 7, Debug)
    else if HasPrefix(str, "[TRACE]") then After(str, 7, Trace)
    else if HasPrefix(str, "[INFO]") then After(str, 6, Info)
    else if HasPrefix(str, "[WARN]") then After(str, 7, Warn)
    else if HasPrefix(str, "[ERROR]") then After(str, 7, Error)
    else if HasPrefix(str, "[ERR]") then After(str, 5, Error)
    else Pick(Info, str)
  }

  /** pickLevel cutting exactly the tag it matched. */
  function PickLevelFixed(str: string): (r: Pick)
    ensures r.Pick?
  {
    if HasPrefix(str, "[DEBUG]") then After(str, 7, Debug)
    else if HasPrefix(str, "[TRACE]") then After(str, 7, Trace)
    else if HasPrefix(str, "[INFO]") then After(str, 6, Info)
    else if HasPrefix(str, "[WARN]") then After(str, 6, Warn)
    else if HasPrefix(str, "[ERROR]") then After(str, 7, Error)
    else if HasPrefix(str, "[ERR]") then After(str, 5, Error)
    else Pick(Info, str)
  }

  /** The characters Write trims from the end of the line. */
  const LineEnd: string := " \t\n"

  /** stdlogAdapter */
  datatype Adapter = Adapter(hl: LegacyLog.Logger, inferLevels: bool)

  /** The level and message Write hands to the logger: the trimmed line at
      Info, or, inferring levels, what pickLevel reads from it (any level
      outside Trace..Error would go to Info). Inferring levels, a line that
      trims to a bare "[WARN]" makes pickLevel slice out of range, a panic
      the caller must avoid. */
  function Dispatch(inferLevels: bool, data: string): (r: (Level, string))
    requires inferLevels ==> TrimRightAny(data, LineEnd) != "[WARN]"
    ensures IsMessageLevel(r.0)
    ensures !inferLevels ==> r == (Info, TrimRightAny(data, LineEnd))
    ensures inferLevels ==> r == (PickLevel(TrimRightAny(data, LineEnd)).level, PickLevel(TrimRightAny(data, LineEnd)).msg)
  {
    var str := TrimRightAny(data, LineEnd);
    if inferLevels then
      PickLevelPanics(str);
      var pick := PickLevel(str);
      (if IsMessageLevel(pick.level) then pick.level else Info, pick.msg)
    else (Info, str)
  }

  /** Dispatch with the corrected pickLevel: defined on every line, and the
      same as Dispatch on every line that does not open with "[WARN]". */
  function DispatchFixed(inferLevels: bool, data: string): (r: (Level, string))
    ensures IsMessageLevel(r.0)
    ensures !inferLevels ==> r == (Info, TrimRightAny(data, LineEnd))
    ensures inferLevels ==> r == (PickLevelFixed(TrimRightAny(data, LineEnd)).level, PickLevelFixed(TrimRightAny(data, LineEnd)).msg)
    ensures !HasPrefix(TrimRightAny(data, LineEnd), "[WARN]") ==> r == Dispatch(inferLevels, data)
  {
    var str := TrimRightAny(data, LineEnd);
    if inferLevels then
      var pick := PickLevelFixed(str);
      (if IsMessageLevel(pick.level) then pick.level else Info, pick.msg)
    else (Info, str)
  }

  /** Write: logs the line with no arguments at the level Dispatch gives,
      and always reports every character written and no error. */
  method Write(a: Adapter, data: string, p: Printer, t: Moment, site: Option<CallSite>)
    returns (n: nat, err: Option<string>)
    requires a.hl.Valid()
    requires a.inferLevels ==> TrimRightAny(data, LineEnd) != "[WARN]"
    requires var (lvl, msg) := Dispatch(a.inferLevels, data);
             a.hl.Clears(lvl) && a.hl.json ==> p.encode(LegacyLog.JsonVals(t, a.hl.caller, a.hl.name, site, lvl, msg, [])).Encoded?
    modifies a.hl.w, a.hl.w.out
    ensures n == |data| && err == None && a.hl.Valid()
    ensures var (lvl, msg) := Dispatch(a.inferLevels, data);
            a.hl.w.out.written == old(a.hl.w.out.written)
              + (if a.hl.Clears(lvl) then LegacyLog.Flushed(a.hl.LineFor(p, t, site, lvl, msg, [])) else [])
  {
    var str := TrimRightAny(data, LineEnd);
    var lvl := Info;
    if a.inferLevels {
      PickLevelPanics(str);
      var pick := PickLevel(str);
      str := pick.msg;
      match pick.level {
        case 1 => lvl := Trace;
        case 2 => lvl := Debug;
        case 3 => lvl := Info;
        case 4 => lvl := Warn;
        case 5 => lvl := Error;
        case _ => lvl := Info;
      }
    }
    assert (lvl, str) == Dispatch(a.inferLevels, data);
    LegacyLog.Log(a.hl, lvl, str, [], p, t, site);
    n := |data|;
    err := None;
  }

  /** pickLevel as written panics on exactly one line: the bare "[WARN]". */
  lemma PickLevelPanics(str: string)
    ensures PickLevel(str).OutOfRange? <==> str == "[WARN]"
  {
    if HasPrefix(str, "[WARN]") {
      WarnNotEarlier(str);
      if |str| < 7 {
        assert str == str[..6] == "[WARN]";
      }
    }
  }

  // ---- properties of pickLevel ----

  lemma PrefixOf(tag: string, s: string)
    ensures HasPrefix(tag + s, tag) && (tag + s)[|tag|..] == s
  {
    assert (tag + s)[..|tag|] == tag;
  }

  /** A string that differs from `tag` at position `i` does not open with
      it. */
  lemma Differs(str: string, tag: string, i: nat)
    requires i < |tag| && i < |str| && str[i] != tag[i]
    ensures !HasPrefix(str, tag)
  {
    if |tag| <= |str| {
      assert str[..|tag|][i] != tag[i];
    }
  }

  /** A line that opens with none of the tags is logged at Info as it
      is, by both versions. */
  lemma UntaggedAtInfo(str: string)
    requires !HasPrefix(str, "[DEBUG]") && !HasPrefix(str, "[TRACE]") && !HasPrefix(str, "[INFO]")
    requires !HasPrefix(str, "[WARN]") && !HasPrefix(str, "[ERROR]") && !HasPrefix(str, "[ERR]")
    ensures PickLevel(str) == Pick(Info, str) && PickLevelFixed(str) == Pick(Info, str)
  {
  }

  /** "[DEBUG]" and the text after it. */
  lemma DebugRead(s: string)
    ensures PickLevelFixed("[DEBUG]" + s) == Pick(Debug, TrimSpace(s))
  {
    PrefixOf("[DEBUG]", s);
  }

  /** "[TRACE]" and the text after it. */
  lemma TraceRead(s: string)
    ensures PickLevelFixed("[TRACE]" + s) == Pick(Trace, TrimSpace(s))
  {
    var str := "[TRACE]" + s;
    PrefixOf("[TRACE]", s);
    Differs(str, "[DEBUG]", 1);
  }

  /** "[INFO]" and the text after it. */
  lemma InfoRead(s: string)
    ensures PickLevelFixed("[INFO]" + s) == Pick(Info, TrimSpace(s))
  {
    var str := "[INFO]" + s;
    PrefixOf("[INFO]", s);
    Differs(str, "[DEBUG]", 1);
    Differs(str, "[TRACE]", 1);
  }

  /** "[WARN]" and the text after it, in the corrected version. */
  lemma WarnRead(s: string)
    ensures PickLevelFixed("[WARN]" + s) == Pick(Warn, TrimSpace(s))
  {
    var str := "[WARN]" + s;
    PrefixOf("[WARN]", s);
    WarnNotEarlier(str);
  }

  /** No line opening with "[WARN]" opens with an earlier tag. */
  lemma WarnNotEarlier(str: string)
    requires HasPrefix(str, "[WARN]")
    ensures !HasPrefix(str, "[DEBUG]") && !HasPrefix(str, "[TRACE]") && !HasPrefix(str, "[INFO]")
  {
    assert str[1] == "[WARN]"[1];
    Differs(str, "[DEBUG]", 1);
    Differs(str, "[TRACE]", 1);
    Differs(str, "[INFO]", 1);
  }

  /** "[ERROR]" and the text after it. */
  lemma ErrorRead(s: string)
    ensures PickLevelFixed("[ERROR]" + s) == Pick(Error, TrimSpace(s))
  {
    var str := "[ERROR]" + s;
    PrefixOf("[ERROR]", s);
    Differs(str, "[DEBUG]", 1);
    Differs(str, "[TRACE]", 1);
    Differs(str, "[INFO]", 1);
    Differs(str, "[WARN]", 1);
  }

  /** "[ERR]" and the text after it: no text after "[ERR]" makes the line
      open with "[ERROR]", so testing "[ERROR]" first takes nothing from
      "[ERR]". */
  lemma ErrRead(s: string)
    ensures PickLevelFixed("[ERR]" + s) == Pick(Error, TrimSpace(s))
  {
    var str := "[ERR]" + s;
    PrefixOf("[ERR]", s);
    Differs(str, "[DEBUG]", 1);
    Differs(str, "[TRACE]", 1);
    Differs(str, "[INFO]", 1);
    Differs(str, "[WARN]", 1);
    Differs(str, "[ERROR]", 4);
  }

  /** As written, "[WARN]" panics when nothing follows it and otherwise
      loses the character after the tag: "[WARN]disk full" is logged as
      "isk full", where the corrected version logs "disk full". */
  lemma WarnCutsSeven(c: char, s: string)
    ensures PickLevel("[WARN]") == OutOfRange
    ensures PickLevel("[WARN]" + [c] + s) == Pick(Warn, TrimSpace(s))
    ensures PickLevelFixed("[WARN]" + [c] + s) == Pick(Warn, TrimSpace([c] + s))
  {
    PrefixOf("[WARN]", []);
    assert "[WARN]" + [] == "[WARN]";
    WarnNotEarlier("[WARN]");
    var str := "[WARN]" + [c] + s;
    assert str == "[WARN]" + ([c] + s);
    PrefixOf("[WARN]", [c] + s);
    WarnNotEarlier(str);
    assert str[7..] == s;
  }

  /** The defect is hidden by the usual space after the tag: with it, both
      versions read the same. */
  lemma WarnWithSpace(s: string)
    ensures PickLevel("[WARN] " + s) == PickLevelFixed("[WARN] " + s)
  {
    var str := "[WARN] " + s;
    assert str == "[WARN]" + (" " + s);
    PrefixOf("[WARN]", " " + s);
    WarnNotEarlier(str);
    assert str[7..] == s && str[6..] == " " + s;
    assert AllSpace(" ");
    TrimLeftSpacePrefix(" ", s);
  }

  /** Both versions agree on every line that does not open with
      "[WARN]". */
  lemma FixedAgreesElsewhere(str: string)
    requires !HasPrefix(str, "[WARN]")
    ensures PickLevel(str) == PickLevelFixed(str)
  {
  }
}
