# go-hclog, modelled in Dafny

This project models the core of go-hclog, HashiCorp's leveled, structured
logger for Go, and proves properties of that model. It covers:

- the level enumeration and its parse and print functions (`logger.go`);
- the text line formatter and its older variant (`formatter.go`, `log.go`);
- the JSON map builder and its older variant (`json.go`, `log.go`);
- the buffered, optionally coloured writer and the leveled writer
  (`writer.go`);
- the core logger: level gate, exclude function, implied arguments, naming
  and output reset (`intlogger.go`);
- the two sink fan-out loggers (`interceptlogger.go`,
  `multisink_logger.go`);
- the older `package log` logger and its standard-library adapter
  (`int.go`, `stdlog.go`);
- the value-type front end and its records (`value.go`, `record.go`);
- the message filter (`filter.go`);
- the slog handler adapter (`adapter.go`) and the wrapper around a
  standard `*slog.Logger` (`stdslog.go`).

There is one Dafny module per source file, each in a file of its own:

- `levels.dfy` (Levels), `textformat.dfy` (TextFormat),
  `jsonformat.dfy` (JsonFormat) and `writers.dfy` (Writers);
- `intlogger.dfy` (IntLogger), with the argument merging of `With` in
  `implied.dfy` (Implied);
- `intercept.dfy` (Intercept) and `multisink.dfy` (MultiSink);
- `linedetails.dfy` (LineDetails, for `log.go`), `legacylog.dfy`
  (LegacyLog, for `int.go`) and `stdlog.dfy` (StdLog);
- `front.dfy` (Front, for `value.go`), `records.dfy` (Records) and
  `filters.dfy` (Filters);
- `adapter.dfy` (SlogAdapter) and `stdslog.dfy` (StdSlog).

`values.dfy` (Values) holds the closed variant of log argument values and
the renderings of them that several files share. `gostrings.dfy`
(GoStrings) holds the parts of Go's `strings` package that the code uses.

Behaviour that belongs to other libraries is never interpreted. It is
passed in instead:

- the `Format` printf expansion (`fmt.Sprintf`), the `%s` text of a
  non-string key and `json.Encoder` are fields of a `Printer`; the `%v`
  text of the closed value variant is defined outright
  (`Values.PercentV`);
- the clock is a `Moment`, seen only through `time.Time.Format`;
- `runtime.Caller` is an optional `CallSite`.

Code that changes state step by step is modelled with classes, and with
methods proved against specification functions. Pure code is modelled
with functions and lemmas.

## Model

| member | source | states |
|---|---|---|
| Levels.LevelsOrdered | logger.go:25-48 | NoLevel (0) < Trace < Debug < Info < Warn < Error < Off (6) |
| Levels.LevelFromString | logger.go:105-124 | the parsed level always lies in NoLevel..Off |
| Levels.LevelFromStringIgnoresCase | logger.go:106-107 | lower-casing the input never changes the parsed level |
| Levels.LevelFromStringIgnoresSpace | logger.go:107 | white space around the name never changes the parsed level |
| Levels.LevelFromStringRecognised | logger.go:108-123 | every string parsed to a level other than NoLevel is that level's name, trimmed and lower-cased |
| Levels.LevelNamedString | logger.go:108-146 | the name switch maps the printed name of each of Trace..Off back to it, and "none" and "unknown" to NoLevel |
| Levels.LevelNameNormal | logger.go:127-146 | every printed level name is already trimmed and lower-case |
| Levels.LevelStringRoundTrip | logger.go:105-146 | parsing the printed name gives back every level 0..6; levels outside 0..6 print "unknown", which parses as NoLevel |
| Levels.FmtShape | logger.go:58-60 | Fmt's slice has length 1 + number of args, with the template first and the args after it in order |
| Values.DigitsRoundTrip | formatter.go:110-115 | the base-2..16 digits strconv.FormatUint writes read back to the number |
| Values.ToUint64Range | formatter.go:111 | uint64(n) keeps a non-negative n and wraps a negative one to n + 2^64 |
| TextFormat.LevelBracket | formatter.go:38-43 | the level tag is 7 characters and opens with '['; the bracket table holds exactly Trace..Error, and every other level gets "[?????]" |
| TextFormat.BracketNamesLevel | formatter.go:159-165 | the tag of each message level spells the level's name in capitals |
| TextFormat.TrimCallerPathSegments | formatter.go:207-233 | a path with fewer than two '/' is kept whole; otherwise the result is a suffix of the path holding exactly one '/' and starting just after the penultimate one |
| TextFormat.TrimCallerPathFound | formatter.go:207-233 | when the path holds a '/', the result is a suffix of it; with fewer than two '/' it is the whole path, otherwise it starts just after a '/' and holds exactly one |
| TextFormat.SliceElementIsPercentV | formatter.go:181-190 | the kind switch of renderSlice gives each element its "%v" text |
| TextFormat.RenderSliceLoop | formatter.go:167-204 | the loop writes "[", the elements separated by ", " (each quoted when it holds white space), and "]" |
| TextFormat.RadixValuesRoundTrip | formatter.go:110-115 | Hex, Octal and Binary values are written "0x", "0" and "0b" followed by digits that read back to uint64(n) |
| TextFormat.QuotingRule | formatter.go:119-146 | a rendered slice is never quoted; a string value is quoted exactly when it holds a space, tab, newline or carriage return |
| TextFormat.SplitTrailer | formatter.go:66-76 | after the repair the argument count is even; a trailing stack trace is removed and kept, and any other dangling value gets the key EXTRA_VALUE_AT_END |
| TextFormat.Format | formatter.go:29-157 | the buffer writes produce exactly the specified line (time stamp, tag, caller, name, message, pairs, newline, stack trace) |
| TextFormat.WriteArgs | formatter.go:64-155 | the argument half of the line: ':' and the pairs when there are arguments, the newline, then the stack trace |
| TextFormat.WritePairs | formatter.go:80-147 | the pair loop writes every pair in order and ends holding the last stack-trace value it met |
| TextFormat.FinalTraceDefault | formatter.go:116-118 | without stack-trace values among the pairs, the stack trace taken from the dangling argument stays |
| TextFormat.PairsTextAppend | formatter.go:80-147 | pairs render independently: the text of a + b is the text of a followed by the text of b |
| TextFormat.LineFrame | formatter.go:29-62 | a line begins with its header, then the name and message, and ends with a newline |
| TextFormat.ArgsTextShape | formatter.go:66-155 | the part after the message opens with ':' exactly when there are arguments, and ends with a newline |
| TextFormat.ColonIffArgs | formatter.go:66-78 | the character after the message is ':' exactly when the call has arguments, a lone stack trace included |
| TextFormat.DanglingValueGetsMissingKey | formatter.go:72-75 | a dangling value that is not a stack trace is written as a last pair keyed EXTRA_VALUE_AT_END |
| TextFormat.TrailingStacktraceLine | formatter.go:150-155 | a trailing stack trace is not written as a pair: the line is the one without it, followed by the trace on a line of its own (and lines 67-71) |
| TextFormat.ExampleLine | formatter.go:29-157 | the line for a logger named "test" at Info, with two plain pairs, is "[INFO]  test: this is test: who=programmer why=testing\n" |
| TextFormat.PlainPair | formatter.go:131-146 | a pair of plain lower-case words is written " key=value" without quotes |
| JsonFormat.JsonLevel | json.go:80-96 | "@level" is the level's lower-case name for Trace..Error and "all" for any other level |
| JsonFormat.MapEntryReserved | json.go:74-107 | "@message", "@timestamp" and "@level" are always present; "@module" is present exactly when the name is non-empty; "@caller" only when caller reporting is on and the frame was found |
| JsonFormat.JsonValueCases | json.go:34-47 | an error without a marshaler becomes its message string, a Format becomes its Sprintf text, and Hex/Octal/Binary and plain values stay as they are |
| JsonFormat.MergeLastWins | json.go:33-58 | after the pairs are assigned, a key holds the value of the last pair with that key |
| JsonFormat.MergeUntouched | json.go:33-58 | a key that no pair names keeps the entry it had, or stays absent |
| JsonFormat.MergeKeys | json.go:49-57 | no pair is dropped: the keys are the keys there before plus every pair's key, with non-string keys stringified by "%s" |
| JsonFormat.JsonPairs | json.go:21-31 | after the repair the argument count is even |
| JsonFormat.Format | json.go:17-72 | the map filling and the two encoder calls produce exactly the specified output |
| JsonFormat.FillVals | json.go:17-59 | the map handed to the encoder: the reserved entries, the dangling stack trace and the pairs assigned in order |
| JsonFormat.AssignPairs | json.go:33-58 | the pair loop leaves the map the in-order assignment of every pair gives |
| JsonFormat.DanglingStacktraceStored | json.go:22-26 | a dangling stack trace is stored under "stacktrace" unless a pair uses that key |
| JsonFormat.DanglingValueGetsMissingKey | json.go:27-30 | any other dangling value is stored under EXTRA_VALUE_AT_END |
| JsonFormat.ReservedKeyOverwritten | json.go:57 | a pair keyed "@message" overwrites the message entry |
| JsonFormat.FallbackOnUnsupportedType | json.go:61-69 | when the encoder rejects a value's type, the output is the encoded reserved entries plus "@warn" set to the unsupported-type message |
| JsonFormat.NothingOnOtherErrors | json.go:63-71 | any other encoder error leaves the output empty |
| Writers.Output.Write | writer.go:87-88 | an io.Writer that records each write and reports its error |
| Writers.LeveledWriter.constructor | writer.go:79-84 | NewLeveledWriter keeps the standard output and the override map |
| Writers.LeveledWriter.Route | writer.go:92-97 | a level with an override goes to the override; any other level goes to the standard output |
| Writers.LeveledWriter.Write | writer.go:87-89 | a plain write always reaches the standard output, and its error is returned |
| Writers.LeveledWriter.LevelWrite | writer.go:92-98 | a levelled write is appended to exactly the routed output, and that output's error is returned |
| Writers.ColorsDistinct | writer.go:37-43 | exactly the five message levels have a colour; each code is below 256 and no two levels share one |
| Writers.ColorizeRoundTrip | writer.go:45-49 | a coloured line is the start sequence, the text unchanged, then the reset sequence |
| Writers.EffectiveColor | writer.go:15-18 | colour is off when asked off, or when asked automatic and standard output is not a terminal; otherwise it stays as asked |
| Writers.Writer.constructor | writer.go:15-19 | newWriter starts with an empty buffer on the given output |
| Writers.Writer.Write | writer.go:51-53 | Write appends to the buffer and reports every byte written |
| Writers.Writer.WriteByte | writer.go:55-57 | WriteByte appends one byte to the buffer |
| Writers.Writer.WriteString | writer.go:59-61 | WriteString appends the string to the buffer |
| Writers.Writer.Flush | writer.go:21-35 | Flush hands the whole buffer, coloured for the level when colour is on, to the level's output (LevelWrite for a LevelWriter, Write otherwise), empties the buffer and returns that output's error |
| IntLogger.NewFormatter | intlogger.go:71 | the formatter is the JSON one exactly when JSON format is asked for |
| IntLogger.Logger.New | intlogger.go:50-80 | nil options act as empty options; no level becomes the default level; no output becomes the default output; the implied arguments start empty |
| IntLogger.Logger.LogAs | intlogger.go:84-104 | a call below the threshold, or one the exclude function drops, touches nothing; any other call flushes one line of the implied arguments followed by the call's own, at the call's level |
| IntLogger.Logger.Log | intlogger.go:107-109 | as LogAs, under the logger's own name |
| IntLogger.Logger.Accept | intlogger.go:296-298 | as LogAs, under the name the caller gives |
| IntLogger.Logger.LevelQueries | intlogger.go:137-159 | IsDebug..IsError hold exactly when a call at that level clears the threshold, and each implies the next; IsTrace implies Trace calls clear, but with the threshold NoLevel Trace calls clear while IsTrace is false |
| IntLogger.Logger.With | intlogger.go:166-209 | the new logger's implied arguments are the sorted merge of the old ones and the new ones; every other field is shared; its keys stay strings, so it can be merged again |
| IntLogger.Logger.Named | intlogger.go:213-223 | the name is joined to the old one by a dot, or stands alone under an unnamed logger; nothing else changes |
| IntLogger.Logger.ResetNamed | intlogger.go:228-234 | the name is the one given; nothing else changes |
| IntLogger.Logger.ResetOutput | intlogger.go:236-245 | a nil output is refused with "given output is nil" and the writer stays; otherwise a fresh empty writer on the new output replaces it |
| IntLogger.Logger.ResetOutputWithFlush | intlogger.go:247-263 | a nil output or a nil flushable is refused before any flush; a failed flush is returned and the writer stays; otherwise the flushable is flushed once and the writer replaced |
| IntLogger.Logger.ResetWriter | intlogger.go:265-268 | resetOutput puts a fresh empty writer on the new output |
| IntLogger.Logger.SetLevel | intlogger.go:272-274 | the shared threshold cell takes the new level, so every derived logger sees it |
| Implied.KeysIn | intlogger.go:180-184 | the key list holds each pair's key in order |
| Implied.Layout | intlogger.go:199-202 | the laid-out arguments alternate each key with its value in the map |
| Implied.MergeImplied | intlogger.go:176-202 | With's three loops and the sort produce exactly the merged argument list |
| Implied.ReadImplied | intlogger.go:180-184 | the first loop collects every parent key in order and the parent's pairs as a map |
| Implied.ReadArgs | intlogger.go:186-193 | the second loop appends the keys the map did not have yet and assigns every new pair |
| Implied.LayOut | intlogger.go:198-202 | the third loop writes each sorted key followed by its value |
| Implied.AssignKeys | intlogger.go:183-192 | assigning pairs adds exactly their keys to the map |
| Implied.AssignLastWins | intlogger.go:183-192 | after assigning, a key holds the value of its last pair |
| Implied.AssignUntouched | intlogger.go:183-192 | a key no pair names keeps its earlier value |
| Implied.NewKeysExactly | intlogger.go:188-191 | the appended keys are exactly the new keys the map lacked, each once |
| Implied.MergedLayout | intlogger.go:196-202 | the result is whole pairs whose keys are the sorted key list and whose values are the merged map's |
| Implied.MergedStringKeys | intlogger.go:199-202 | every key of the result is a string |
| Implied.MergedSorted | intlogger.go:196 | the result's keys are in ascending order |
| Implied.SortedKeysHold | intlogger.go:180-196 | the sorted key list holds exactly the parent's keys and the new pairs' keys |
| Implied.MergedKeySet | intlogger.go:180-202 | a key is in the result exactly when the parent or a new pair has it |
| Implied.MergedDistinct | intlogger.go:186-202 | a parent without repeated keys gives a result without repeated keys |
| Implied.MergedNewWins | intlogger.go:192-202 | the last new value given for a key is the one the result holds for it |
| Implied.MergedKeepsParent | intlogger.go:183-202 | a parent key no new pair names keeps the parent's value |
| Implied.WithDanglingValue | intlogger.go:167-206 | with an odd count, a non-nil last value follows the sorted pairs under EXTRA_VALUE_AT_END, and a nil one is dropped |
| Intercept.Sink.Accept | interceptlogger.go:57-59 | a sink records every call it accepts, in order |
| Intercept.Receivers | interceptlogger.go:51-59 | no sink is visited while the counter is zero; otherwise every registered sink is |
| Intercept.CountIsNetCalls | interceptlogger.go:148-165 | the counter is the number of registrations less the number of deregistrations, whichever sinks they named |
| Intercept.MembershipIsLastCall | interceptlogger.go:148-165 | a sink is registered exactly when the last call naming it registered it, or no call named it and it was there to begin with |
| Intercept.RegisterDeregister | interceptlogger.go:148-165 | registering and then deregistering a sink restores the counter and leaves the sink out of the set |
| Intercept.DeregisteredNotVisited | interceptlogger.go:51-59 | a deregistered sink is visited by no later call (and lines 158-165) |
| Intercept.StrayDeregisterSilences | interceptlogger.go:51-53 | deregistering a sink never registered and then registering another leaves the counter at zero, so the registered sink is never visited (and lines 154, 164) |
| Intercept.Notify | interceptlogger.go:57-59 | every sink of the set accepts the call exactly once |
| Intercept.InterceptLogger.New | interceptlogger.go:23-39 | NewInterceptLogger wraps a fresh logger with an empty registry and a zero counter |
| Intercept.InterceptLogger.RetrieveImplied | interceptlogger.go:87-95 | the copy holds the embedded logger's implied arguments followed by the call's arguments |
| Intercept.InterceptLogger.Log | interceptlogger.go:41-60 | the embedded logger logs as it would alone; then, whatever its threshold, each visited sink accepts the call under the embedded logger's name with its implied arguments prefixed; other sinks are untouched |
| Intercept.InterceptLogger.NamedIntercept | interceptlogger.go:100-121 | the copy's embedded logger is the embedded logger's Named child; the registry is shared |
| Intercept.InterceptLogger.ResetNamedIntercept | interceptlogger.go:108-133 | the copy's embedded logger is the ResetNamed child; the registry is shared |
| Intercept.InterceptLogger.With | interceptlogger.go:137-145 | the copy's embedded logger carries the merged implied arguments; the registry is shared |
| Intercept.InterceptLogger.RegisterSink | interceptlogger.go:148-155 | the sink joins the set and the counter goes up by one |
| Intercept.InterceptLogger.DeregisterSink | interceptlogger.go:158-165 | the sink leaves the set and the counter goes down by one |
| Intercept.InterceptLogger.ResetOutput | interceptlogger.go:196-202 | passed on to the embedded logger, with its outcomes |
| Intercept.InterceptLogger.ResetOutputWithFlush | interceptlogger.go:207-213 | passed on to the embedded logger, with its outcomes |
| MultiSink.Sink.constructor | multisink_logger.go:93-99 | NewSink keeps the level and format and gives the sink a fresh empty, uncoloured writer on its output |
| MultiSink.DeliveredAlone | multisink_logger.go:139-156 | a sink whose output no other sink shares receives one line, in its own format, exactly when the call clears its threshold |
| MultiSink.DeliveredNone | multisink_logger.go:139-156 | an output no sink routes to receives nothing from the sink loop |
| MultiSink.WatermarkIsMinimum | multisink_logger.go:81-107 | the watermark is the least of the initial level and every level ever registered |
| MultiSink.SinkLogger.New | multisink_logger.go:45-85 | nil options act as empty; no level becomes the default level; the watermark starts at the level; the time format is the default unless one is given; the sink set starts empty |
| MultiSink.SinkLogger.RegisterSink | multisink_logger.go:101-114 | the sink joins the set, and the watermark drops to the sink's level when that is lower |
| MultiSink.SinkLogger.DeregisterSink | multisink_logger.go:116-120 | the sink leaves the set; the watermark stays |
| MultiSink.SinkLogger.GetLevel | multisink_logger.go:123-125 | Level reports the shared threshold |
| MultiSink.SinkLogger.Render | multisink_logger.go:172-174 | log and logJSON produce the text and JSON lines lineDetails describes (and lines 325-327) |
| MultiSink.SinkLogger.Deliver | multisink_logger.go:144-154 | swapping in a sink's writer sends exactly that line to the sink's output and puts the logger's writer back |
| MultiSink.SinkLogger.Log | multisink_logger.go:129-169 | below the watermark no output changes; otherwise each output receives the lines of the sinks routed to it, in visiting order and each in its sink's format, then the root line when the call clears the logger's own threshold |
| MultiSink.SinkLogger.Pass | multisink_logger.go:134-168 | past the watermark, both lines are rendered and emitted as Log states |
| MultiSink.SinkLogger.Emit | multisink_logger.go:139-168 | the sink loop, then the root line |
| MultiSink.SinkLogger.WriteRoot | multisink_logger.go:158-168 | the root output gets the line exactly when the call clears the logger's own threshold |
| MultiSink.SinkLogger.FanOut | multisink_logger.go:139-156 | after the sink loop, each output holds its earlier lines followed by the lines delivered to it |
| MultiSink.SinkLogger.Visit | multisink_logger.go:139-143 | a sink whose threshold the call does not clear is skipped |
| MultiSink.SinkLogger.Hit | multisink_logger.go:144-154 | a sink whose threshold the call clears gets its line |
| MultiSink.SinkLogger.LevelQueries | multisink_logger.go:438-460 | IsDebug..IsError hold exactly when a call at that level clears the threshold; IsTrace is an equality test |
| MultiSink.SinkLogger.With | multisink_logger.go:465-501 | the implied arguments are the sorted merge of the old and new pairs; everything else is shared |
| MultiSink.SinkLogger.Named | multisink_logger.go:505-515 | the name is joined to the old one by a dot, or stands alone under an unnamed logger |
| MultiSink.SinkLogger.ResetNamed | multisink_logger.go:520-526 | the name is the one given |
| MultiSink.SinkLogger.SetLevel | multisink_logger.go:530-532 | the shared threshold takes the new level; the watermark is left where it was |
| LineDetails.Split | log.go:76-85 | after the repair the argument count is even |
| LineDetails.ValueTextAgrees | log.go:95-131 | build writes every value as the text formatter does, except Hex, Octal and Binary, which it writes as plain decimal numbers |
| LineDetails.Build | log.go:40-154 | the buffer writes produce exactly the specified line: time stamp, tag, caller, name, message, the implied arguments followed by the call's, newline, stack trace |
| LineDetails.WriteArgs | log.go:72-150 | the argument half of the line: ':' and the pairs when there are arguments, the newline, then the stack trace |
| LineDetails.WritePairs | log.go:88-144 | the pair loop writes every pair in order and ends holding the last stack-trace value it met |
| LineDetails.PairStep | log.go:89-144 | one turn of the loop writes one pair, or records a stack-trace value without writing |
| LineDetails.WritePair | log.go:95-143 | a pair is written " key=value", the value quoted when it holds white space and is not a rendered slice |
| LineDetails.PairsTextAppend | log.go:88-144 | pairs render independently: the text of a + b is the text of a followed by the text of b (and line 72) |
| LineDetails.LineStartsWithTime | log.go:43-44 | every line opens with the formatted time and a space |
| LineDetails.ImpliedFirst | log.go:87-144 | the logger's implied pairs are written before the call's own, after one ':' (and line 72) |
| LineDetails.UnknownPlain | log.go:83-143 | the "<unknown>" filler is written without quotes |
| LineDetails.DanglingValueBecomesKey | log.go:77-134 | a dangling value that is not a stack trace must be a string and becomes the key of a last pair valued "<unknown>" |
| LineDetails.DanglingSplit | log.go:77-84 | the repair of an odd list without a trailing stack trace appends "<unknown>" |
| LineDetails.FinalTraceDefault | log.go:118-150 | without stack-trace values among the pairs, the stack trace taken from the dangling argument stays |
| LineDetails.TrailingStacktrace | log.go:77-81 | a trailing stack trace is not written as a pair: the line is the one without it, followed by the trace (and lines 146-150) |
| LineDetails.NoArgsLine | log.go:76 | a call without arguments on a logger without implied ones writes no ':' and ends at the newline (and line 146) |
| LineDetails.EntryMatchesJsonGo | log.go:208-242 | log.go's reserved JSON entries are exactly json.go's, with caller reporting on or off in place of a positive caller offset |
| LineDetails.JsonPairs | log.go:160-169 | after the repair the argument count is even |
| LineDetails.MergeStringsKeys | log.go:171-193 | a pair with a non-string key adds nothing; every string key ends up in the map |
| LineDetails.MergeStringsLastWins | log.go:171-193 | the last pair with a given string key decides its value |
| LineDetails.BuildJson | log.go:155-206 | the map filling and the encoder calls produce exactly the specified JSON line |
| LineDetails.FillVals | log.go:157-194 | the map handed to the encoder: the reserved entries, a dangling stack trace, and the string-keyed pairs assigned in order |
| LineDetails.AssignStringPairs | log.go:171-193 | the pair loop leaves the map the in-order assignment of every string-keyed pair gives |
| LineDetails.JsonDanglingValueBecomesKey | log.go:161-192 | a dangling string value is stored as a key valued "<unknown>" |
| LineDetails.NonStringKeysDropped | log.go:172-176 | with only non-string keys, the map holds the reserved entries and nothing else |
| LineDetails.NoStringKeys | log.go:172-176 | pairs without string keys leave the map as it was |
| LineDetails.JsonFallbackOnUnsupportedType | log.go:195-203 | when the encoder rejects a value's type, the line is the encoded reserved entries plus "@warn" set to the unsupported-type message |
| LegacyLog.Bracket | int.go:17-25 | every tag is seven characters between brackets; only the message levels have one of their own, and every other level gets "[UNKN ]" (and lines 117-122) |
| LegacyLog.Buffered.WriteString | int.go:114-141 | bufio writes gather in the buffer; the output is not touched |
| LegacyLog.Buffered.WriteByte | int.go:115-150 | one byte joins the buffer |
| LegacyLog.Buffered.Flush | int.go:80 | a non-empty buffer reaches the output in one write, an empty one writes nothing; the buffer is empty afterwards |
| LegacyLog.Padded | int.go:145-205 | the repaired list is the original followed, for an odd count, by "<unknown>", and has an even count |
| LegacyLog.Logger.With | int.go:263-269 | the implied arguments are replaced by the new ones; nothing else changes |
| LegacyLog.Logger.Named | int.go:271-279 | as written: a named logger gets ".name" appended, and an unnamed logger stays unnamed |
| LegacyLog.Logger.NamedFixed | int.go:271-279 | the corrected Named: an unnamed logger takes the name given |
| LegacyLog.Logger.QueriesInverted | int.go:243-261 | as written, each IsX holds exactly when the threshold is X or a call at X is dropped: inverted against Log's gate |
| LegacyLog.Logger.FixedQueriesMatchLog | int.go:243-261 | the corrected queries hold exactly when a call at their level is written, and each implies the next (and lines 64-67) |
| LegacyLog.Logger.NamedDropsName | int.go:271-279 | as written, Named on an unnamed logger loses the name, and so does every Named after it |
| LegacyLog.Logger.NamedTwice | int.go:274-276 | under a named logger, two Named calls build the dotted path |
| LegacyLog.Logger.NamedFixedKeepsName | int.go:271-279 | the corrected Named always ends the name with the one given and agrees with Named under a named logger |
| LegacyLog.Logger.WithReplaces | int.go:263-269 | after two With calls only the second's arguments remain, and they lead the call's arguments (and line 143) |
| LegacyLog.Logger.JsonIgnoresImplied | int.go:167-215 | the JSON record never reads the implied arguments, so With changes nothing a JSON logger writes |
| LegacyLog.New | int.go:27-42 | no output means standard output; the level is taken as given, with no default for NoLevel; the buffer starts empty |
| LegacyLog.Log | int.go:64-81 | a call below the threshold writes nothing; any other call writes its JSON record or text line in one flush, the text line holding the implied arguments before the call's |
| LegacyLog.LogText | int.go:113-165 | log puts exactly the specified text line into the buffer |
| LegacyLog.WriteLead | int.go:114-141 | the time stamp, tag, caller, name and message |
| LegacyLog.WriteStamp | int.go:114-122 | the time in TimeFormat, a space and the level's tag |
| LegacyLog.WriteCaller | int.go:124-132 | " file:line:" with the trimmed path when caller reporting is on and the frame was found; nothing otherwise |
| LegacyLog.WriteName | int.go:136-139 | "name: " for a named logger; nothing otherwise |
| LegacyLog.WriteBody | int.go:143-162 | ':' and the pairs when there are arguments, nothing otherwise |
| LegacyLog.WritePairs | int.go:152-161 | the pair loop writes every pair in order |
| LegacyLog.WritePair | int.go:153-160 | one turn writes one pair |
| LegacyLog.FormatPair | int.go:153-160 | " key=value", with the value's "%v" text quoted when it holds white space |
| LegacyLog.LogJson | int.go:167-221 | the buffer receives the encoding of the record; an encoding error panics, which the precondition excludes |
| LegacyLog.AssignPairs | int.go:207-214 | the pair loop leaves the map the in-order assignment of every string-keyed pair gives |
| LegacyLog.BracketsAgainstFormatter | int.go:17-25 | the tags agree with formatter.go's for Trace, Debug and Error; Info and Warn pad inside the bracket instead of after it |
| LegacyLog.UnknownPair | int.go:147-160 | the "<unknown>" filler is written without quotes |
| LegacyLog.DanglingPadded | int.go:145-161 | a dangling last argument becomes the key of a last pair valued "<unknown>" |
| LegacyLog.ImpliedFirst | int.go:143-161 | the implied arguments are written first, then the call's |
| LegacyLog.MergeRawLastWins | int.go:207-214 | the last pair with a given string key decides its value, stored as it is |
| LegacyLog.MergeRawSkips | int.go:208-212 | pairs without a string key leave the map as it was |
| LegacyLog.JsonDanglingBecomesKey | int.go:203-213 | a dangling string argument becomes a key valued "<unknown>" |
| LegacyLog.JsonNonStringKeysSkipped | int.go:201-215 | with no string key among the arguments, the record holds the reserved entries only |
| StdLog.After | stdlog.go:42-52 | cutting k characters is out of range exactly when the line is shorter than k; otherwise the rest is trimmed |
| StdLog.PickLevelFixed | stdlog.go:39-56 | the corrected pickLevel never runs out of range |
| StdLog.PickLevel | stdlog.go:39-56 | pickLevel as written: every level it reads is a message level, and on every line not opening with "[WARN]" it agrees with the corrected version |
| StdLog.PickLevelPanics | stdlog.go:47-48 | pickLevel as written slices out of range on exactly one line, the bare "[WARN]" |
| StdLog.Dispatch | stdlog.go:13-34 | the level is always a message level; without inference it is Info with the line right-trimmed of spaces, tabs and newlines; with inference it is what pickLevel as written reads from that line |
| StdLog.DispatchFixed | stdlog.go:13-34 | with the corrected pickLevel, defined on every line, and equal to Dispatch on every line not opening with "[WARN]" |
| StdLog.Write | stdlog.go:13-37 | the logger receives the call Dispatch describes, with pickLevel as written, and Write reports the length of the data and no error |
| StdLog.UntaggedAtInfo | stdlog.go:53-54 | a line opening with no tag is logged at Info unchanged |
| StdLog.DebugRead | stdlog.go:41-42 | "[DEBUG]" gives Debug and the trimmed rest |
| StdLog.TraceRead | stdlog.go:43-44 | "[TRACE]" gives Trace and the trimmed rest |
| StdLog.InfoRead | stdlog.go:45-46 | "[INFO]" gives Info and the trimmed rest |
| StdLog.WarnRead | stdlog.go:47-48 | in the corrected version, "[WARN]" gives Warn and the trimmed rest |
| StdLog.WarnNotEarlier | stdlog.go:41-48 | a line opening with "[WARN]" matches no earlier case |
| StdLog.ErrorRead | stdlog.go:49-50 | "[ERROR]" gives Error and the trimmed rest |
| StdLog.ErrRead | stdlog.go:49-52 | "[ERR]" gives Error and the trimmed rest: testing "[ERROR]" first takes nothing from it |
| StdLog.WarnCutsSeven | stdlog.go:47-48 | as written, a bare "[WARN]" runs out of range and any other "[WARN]" line loses the character after the tag |
| StdLog.WarnWithSpace | stdlog.go:47-48 | with the usual space after "[WARN]", the written and corrected versions agree |
| StdLog.FixedAgreesElsewhere | stdlog.go:39-56 | on every line not opening with "[WARN]", the written and corrected versions agree |
| Front.Shared.constructor | value.go:7-9 | the state a LogImpl shares with its derived loggers starts at the given level with nothing received |
| Front.Impl.LogRecord | value.go:31 | the implementation receives the record's level, message, caller PC and argument slice |
| Front.Impl.SetLevel | value.go:127 | the shared level takes the new value; nothing is received |
| Front.Impl.Derive | value.go:103-119 | a derived implementation shares its parent's state and records how it was derived |
| Front.Logger.Log | value.go:11-65 | a call at Off or below the implementation's level records nothing; any other call records one record with the arguments as SetArgs leaves them |
| Front.Logger.QueriesMatchGate | value.go:69-95 | each IsX holds exactly when a call at X passes log's gate (and line 13) |
| Front.Logger.QueriesNested | value.go:69-95 | IsTrace implies IsDebug, which implies IsInfo, then IsWarn, then IsError |
| Front.Logger.Named | value.go:101-105 | the new logger wraps the implementation's Named child, which shares the level |
| Front.Logger.ResetNamed | value.go:110-114 | the new logger wraps the implementation's ResetNamed child |
| Front.Logger.With | value.go:117-121 | the new logger wraps the implementation's With child |
| Front.Logger.SetLevel | value.go:126-128 | the shared level takes the new value; nothing is logged |
| Records.ArgsAfter | record.go:14-22 | more than ten arguments are kept as they are; otherwise the ten-slot inline array shows the arguments first and its earlier contents after them |
| Records.Nils | record.go:10 | a new record's inline array is ten nils |
| Records.ArgsOnNewRecord | record.go:10-21 | on a new record, up to ten arguments come back padded with nils to ten slots |
| Records.Record.constructor | record.go:5-12 | a record literal: the fields given, an inline array of ten nils and no arguments |
| Records.Record.SetArgs | record.go:14-22 | more than ten arguments are copied into a fresh slice; otherwise they are copied into the inline array, which becomes Args; the caller's slice is neither changed nor aliased |
| Filters.Inserted | filter.go:10-16 | after Add the set exists and holds the message; every other message is as before |
| Filters.InsertIdempotent | filter.go:10-16 | adding a message twice is adding it once |
| Filters.AddedAllMembers | filter.go:10-21 | after any sequence of Adds a message is in the set, and so filtered out, exactly when it was there before or was added; a nil map stays nil only when nothing was added |
| Filters.FilterOut.constructor | filter.go:6-8 | the zero FilterOut has no set |
| Filters.FilterOut.Add | filter.go:10-16 | the set after Add is the Inserted one |
| Filters.FilterOut.Excludes | filter.go:18-21 | a message is filtered out exactly when it was added; with no set, nothing is |
| SlogAdapter.Band | adapter.go:57-68 | every slog level falls in the band of exactly one message level |
| SlogAdapter.TranslateLevel | adapter.go:52-69 | every slog level translates to a message level |
| SlogAdapter.TableAgreesWithBands | adapter.go:44-69 | the exact-match table agrees with the bands, so translation is the band function everywhere |
| SlogAdapter.TranslateMonotone | adapter.go:52-69 | a more severe slog level never translates to a less severe hclog level |
| SlogAdapter.EnabledAsksHandledLevel | adapter.go:29-69 | Enabled asks the wrapped logger about exactly the level Handle would log at |
| SlogAdapter.PairedConcat | adapter.go:93-146 | appending flattened pair lists keeps them whole pairs with prefixed string keys |
| SlogAdapter.PairedLonger | adapter.go:90 | keys carrying a longer prefix carry the shorter one too |
| SlogAdapter.ProcessAttr | adapter.go:99-121 | the result is whole pairs, each key a string starting with the prefix |
| SlogAdapter.ProcessGroup | adapter.go:74-97 | the result is whole pairs, each key a string starting with the prefix |
| SlogAdapter.Items | adapter.go:92-149 | the flattened attributes are whole pairs, each key a string starting with the prefix |
| SlogAdapter.Inlined | adapter.go:79-88 | the members of an unnamed group are whole pairs, each key a string starting with the prefix |
| SlogAdapter.Handle | adapter.go:140-153 | the logger receives one call at the translated level with the record's message and every attribute flattened in order, keyed under the handler's prefix; the error is always nil |
| SlogAdapter.WithArgs | adapter.go:167 | With adds one argument list to the wrapped logger and leaves its level answers alone |
| SlogAdapter.WithAttrs | adapter.go:159-170 | the new handler's logger carries the flattened attributes, keyed under the prefix; the prefix is kept |
| SlogAdapter.WithGroup | adapter.go:191-202 | the logger is kept; an empty name returns the handler unchanged; any other name extends the prefix by the name and a dot |
| SlogAdapter.WithGroupIsGroup | adapter.go:181-202 | attributes logged under WithGroup(name) are flattened as a group named name would be |
| SlogAdapter.EmptyGroupVanishes | adapter.go:74-104 | a group without members contributes nothing, named or not |
| SlogAdapter.GroupQualifies | adapter.go:90-94 | every key from a named group carries the group's name and a dot after the prefix |
| SlogAdapter.InlinedKeepsPlain | adapter.go:79-88 | an unnamed group contributes one pair per member that is not a group; groups nested in it are dropped |
| SlogAdapter.InlinedLikeTopLevel | adapter.go:79-117 | members of an unnamed group that are plain values with keys come out as they would at the top level |
| StdSlog.MapsInverse | stdslog.go:37-58 | the two level maps cover exactly Trace..Off and their slog images, and each undoes the other |
| StdSlog.ToSlogMonotone | stdslog.go:37-49 | the map to slog levels is strictly increasing on Trace..Off |
| StdSlog.UnmappedAsInfo | stdslog.go:42-49 | a level outside Trace..Off is sent as slog level 0, which reads back as Info (and line 104) |
| StdSlog.GroupNamesSnoc | stdslog.go:143-173 | a WithGroup step adds one group name; a With step adds none |
| StdSlog.LevelVar.constructor | stdslog.go:15 | a level variable holds the level it is given |
| StdSlog.FromStandardSLogger | stdslog.go:62-70 | the new wrapper has no names and no arguments, keeps the level variable, and is well formed |
| StdSlog.Clone | stdslog.go:20-33 | the copy keeps both slog loggers, the names and the arguments, and drops the level variable |
| StdSlog.Named | stdslog.go:136-145 | the name is appended and becomes a group of the slog logger; the arguments are kept; the level variable is dropped; well-formedness is kept |
| StdSlog.Unnamed | stdslog.go:155-167 | dropping the names gives back the slog logger from before the first name |
| StdSlog.ResetNamed | stdslog.go:147-169 | the names become the one given, or none for the empty name; the arguments are kept; the level variable is dropped |
| StdSlog.With | stdslog.go:171-176 | the arguments are appended and given to the slog logger; the names are kept; the level variable is dropped |
| StdSlog.SetLevel | stdslog.go:102-106 | with a level variable, it holds the slog image of the level; without one nothing changes |
| StdSlog.JoinSnoc | stdslog.go:133 | joining one more name adds a separator and the name, or gives the name alone |
| StdSlog.NameOfNamed | stdslog.go:132-145 | the name after Named is the parent's name, a dot and the new name, or the new name alone |
| StdSlog.NameOfResetNamed | stdslog.go:132-169 | the name after ResetNamed is exactly the name given |
| StdSlog.LevelRoundTrip | stdslog.go:42-58 | for Trace..Off, the slog level SetLevel stores reads back as the same level (and lines 98, 104) |
| StdSlog.SetLevelReadsBack | stdslog.go:92-106 | after SetLevel on a wrapper with a level variable, GetLevel reports the level set |
| StdSlog.ResetNamedEmptyRestores | stdslog.go:136-158 | ResetNamed("") after one Named gives back the original slog logger and no names |
| StdSlog.DerivedIgnoresSetLevel | stdslog.go:20-33 | a derived wrapper holds no level variable, so SetLevel on it changes nothing (and lines 102-106) |

## Left out

- Concurrency: the mutexes, `Locker`, `sync/atomic` and `sync.Once` are not modelled; every operation runs sequentially, and the shared `*int32` level cell is a heap object (`LevelCell`, `LevelVar`) without 32-bit wrap-around.
- Clock and caller capture: `time.Now`, the time layout and `runtime.Caller` / `runtime.Callers` are parameters (`Moment`, `Option<CallSite>`, a record's call-site value).
- Foreign rendering: the `Format` printf expansion, the `%s` text of a non-string key and `json.Encoder` are the fields of a `Printer` parameter, and the encoder reports either the text or an unsupported-type or other error; `%v` of the closed value variant is `Values.PercentV`, and values outside that variant (`reflect`) are not modelled.
- Map iteration order: Go ranges over maps in an unspecified order; where the output depends on it (the intercept and multi-sink loops over their sinks), the order is an `order` parameter that must enumerate the map.
- The `bufio.Writer` of `int.go` is an unbounded buffer: its 4096-byte capacity, the automatic flush when it fills and its sticky write error are not modelled.
- An underlying writer records every byte it is handed and may also report an error; short writes are not modelled.
- `int.go` `Stacktrace` (runtime stack capture) is not modelled.
- The `StandardLogger` and `StandardWriter` constructors of every logger (`intlogger.go`, `interceptlogger.go`, `multisink_logger.go`, `int.go`, `stdslog.go`) are not modelled; the adapter they build is `StdLog.Write` on the older logger.
- `int.go` `logJson` panics when encoding fails; the model states this as a requirement on the caller (`LegacyLog.Log`, `StdLog.Write`).
- `stdslog.go`: `Trace`..`Error`, the `Is*` queries and `Log` call into `log/slog` and are not modelled; the slog logger is kept symbolic (its groups and attributes), and `getLowestLevel` is the `lowest` parameter of `StdSlog.GetLevel`.
- Levels.LevelFromString: lower-casing is ASCII only (`GoStrings.ToLower`); Go's `strings.ToLower` also maps other letters, so a name such as "İNFO" (U+0130 lowers to 'i') parses as Info in Go and as NoLevel here.
- Strings are sequences of characters, not of bytes: Go's byte lengths and byte slicing become character counts and character slicing. StdLog.Write reports the number of characters, not `len(data)` in bytes, and pickLevel's cuts (`StdLog.PickLevel`, `StdLog.WarnCutsSeven`) remove characters; the two agree on ASCII text.
- StdLog.Write: with level inference on, a line that trims to a bare "[WARN]" makes pickLevel's `str[7:]` panic; the model states this as a requirement on the caller (`StdLog.Dispatch` carries the same one, and `StdLog.PickLevelPanics` shows it is the only such line).
- IntLogger.Logger.With: the `.(string)` type assertions on the keys panic on a non-string key; the requirement that every key be a string stands for that panic.
- Intercept.InterceptLogger.With: the same `.(string)` panic of the embedded logger's With, stated as the same requirement.
- MultiSink.SinkLogger.With: the explicit panic on an odd argument count and the `.(string)` panics on non-string keys are stated as the requirement that the arguments be whole pairs with string keys.
- MultiSink.SinkLogger.Log: in text format, `log` asserts `args[i].(string)` on every key and panics on any other; the requirement that the arguments be writable (`LineDetails.Writable`) stands for that panic (MultiSink.SinkLogger.Pass carries the same requirement).
- LineDetails.Build: the key type assertion of `build` panics on a non-string key; the `Writable` requirement stands for it, and LineDetails.Line, the function Build is proved against, carries the same one.
- Writers.Writer.Flush: with colour on, writer.go looks the level up in the colour table and calls the result; at any level outside Trace..Error (Off, NoLevel) that is a nil function and Go panics. The requirement that a coloured flush be at a level of the table stands for that panic (`Writers.Shown` carries the same one).
- IntLogger.Logger.LogAs: a call that passes the gate on a coloured logger flushes at its own level, so `Log(Off, ...)` on a logger whose threshold lets Off through panics in the colour lookup; the requirement that a written call on a coloured logger be at a level of the colour table stands for that panic.
- IntLogger.Logger.Log: the same colour-lookup panic as LogAs, stated as the same requirement.
- IntLogger.Logger.Accept: the same colour-lookup panic as LogAs, stated as the same requirement.
- Intercept.InterceptLogger.Log: the embedded logger's colour-lookup panic, stated as the same requirement on the root logger.
- A `Format` value is modelled as a string template and its arguments, as `Fmt` builds it. Go's `Format` is a plain slice, and every renderer asserts its first element is a string, so an empty `Format{}` or one opening with a non-string panics in Go; such values cannot be expressed here.
- The older `package log` of `int.go` and `stdlog.go` declares its own `Level` type and constants, which are not part of this model; `LegacyLog` and `StdLog` use the levels of `Levels` (NoLevel..Off, 0..6) in their place, so its brackets and level gate are stated over those values.
- StdSlog.ResetNamed: requires a well-formed wrapper (a named wrapper keeps its original slog logger); on any other wrapper Go dereferences a nil pointer.
- `adapter.go`: slog values are taken already resolved, the zero `slog.Value` is the `Nil` value, the wrapped hclog logger is represented by its five `Is*` answers and the argument lists it receives, and the `context.Context` parameters are dropped.
- `value.go`: the `Trace`..`Error` wrappers are `Log` at a fixed level and are covered by `Front.Logger.Log`; the `LogImpl` behind a front logger is a recording implementation whose `Named`, `ResetNamed` and `With` are recorded derivations.
- `multisink_logger.go` calls `newWriter(output)` with the output alone, so its writers are modelled uncoloured; `SinkOptions` is not part of this model, and a sink is created from its level, format and output.
- The copies of `trimCallerPath` and `renderSlice` in `log.go` and `int.go` are the same code as in `formatter.go` and reuse `TextFormat.TrimCallerPath` and `TextFormat.RenderSlice`.
- The intercept logger's `Named` and `ResetNamed` only delegate to `NamedIntercept` and `ResetNamedIntercept`, which are modelled.
- `colorize_unix.go`, `colorize_windows.go` (terminal detection: `terminal` is a parameter), `zap.go`, `global.go`, `nulllogger.go`, `multi.go`, `multilogger.go` and the example program are not part of this model.
- Behaviour that only tests describe and the code shown does not have (empty-string and non-printable quoting, per-element slice quoting, independent levels, JSON without time, exclude and context helpers) is not part of this model.

## Findings

| source | as written | input that shows it | evidently intended | confidence | as-written member | corrected member |
|---|---|---|---|---|---|---|
| int.go:243-261 | `IsX` returns `level >= X`, the reverse of the gate in `Log` | a logger at Error: `IsDebug()` is true, yet a Debug call is dropped | `IsX` is true exactly when a call at X is written (`level <= X`), as in every other logger of the package | not executed | LegacyLog.Logger.QueriesInverted | LegacyLog.Logger.FixedQueriesMatchLog |
| int.go:271-279 | `Named` adds the name only when the logger already has one | `Named("db")` on a logger with name "" keeps the name "" | the new name alone, as `intlogger.go` does | not executed | LegacyLog.Logger.NamedDropsName | LegacyLog.Logger.NamedFixedKeepsName |
| stdlog.go:47-48 | `[WARN]`, six characters, is cut off with `str[7:]` | "[WARN]disk full" is logged as "isk full"; a bare "[WARN]" slices out of range | cut exactly the six characters of the tag | not executed | StdLog.WarnCutsSeven | StdLog.WarnRead |
