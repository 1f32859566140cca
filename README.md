# mythcommflag-silence: presets and the skip-list read loop

This project models the core of `silence.py`, a MythTV commercial flagger. The script pipes a recording through a silence analyzer. As the analyzer prints "cut" lines, the script turns them into a skip list and sends that list to the players.

Two parts are modelled:

- **Presets** (`presets.dfy`, class `PRESET`). These are the six analyzer parameters: thresh, minquiet, mindetect, minbreak, maxsep and pad. The defaults are -75, 0.16, 6, 120, 120 and 0.48.
  - They can be overridden positionally by a `--preset` string.
  - Otherwise they can be overridden by the first matching line of a `--presetfile`. A line matches when its pattern matches the title or the callsign (case-insensitive prefix match).
  - Empty, missing and unparsable fields keep the current value. An unparsable field logs an error.
  - `getValues` yields `str()` of each value, in canonical order.
- **The read loop** (`markup.dfy`, with the message format in `notify.dfy`). Each analyzer line is `tag@payload`.
  - `cut` logs its payload and takes its first two runs of digits as a break. It appends the break to the skip list and counts it. It then sends `COMMFLAG_UPDATE <progId> <entries>` with the whole list to the backend, and logs an error when the reply is not `OK`.
  - `info`, `debug` and `err` log the payload at that level.
  - Any other tag logs the tag as a warning.
  - An empty read ends the loop.
  - A line without `@` ends the script with the ValueError of the tuple unpacking. So does a cut line with fewer than two numbers, with the IndexError of `numbers[0]` (no number) or `numbers[1]` (one number).

`text.dfy` writes out the Python string operations the script relies on: `strip`, `split`, `join`, `split('@', 1)`, `replace`, `re.findall('\d+')`, `int` and `str`. `wrappers.dfy` holds `Option`.

Some operations are passed in as function parameters:
- float parsing (`parseFloat`) and float formatting (`showFloat`);
- the regular-expression engine (`RegexEngine`: whether a pattern compiles, and `re.match` with IGNORECASE);
- the contents of the preset file (`readFile`, `None` when it cannot be opened);
- the backend's reply to a command (`backend`).

The loop's side effects are recorded as state: the skip list, the break counter, the log entries and the messages sent. `Step`/`RunSpec` give the meaning of one parsed line and of a whole stream. The class `Session` is the loop itself, and it is proved against them.

Two behaviours of the code are worth stating outright:
- **Line without `@`.** It raises ValueError at `silence.py:194`; the model records it as the fault `NoSeparator`, which ends the run.
- **Override values.** The defaults -75, 6 and 120 are Python ints; every override becomes a float. So after `--preset "-75,0.16,6,120,120,0.48"` the values are numerically the defaults, but `getValues` prints `-75.0` and not `-75` (`Num = IntNum | FloatNum`).

## Model

| member | source | states |
|---|---|---|
| Text.Strip | silence.py:65 | the result has no whitespace at either end and is the input minus an all-whitespace prefix and suffix |
| Text.StripUnchanged | silence.py:79 | stripping a string without surrounding whitespace returns it unchanged |
| Text.StripIdempotent | silence.py:77-79 | stripping the already-stripped line again changes nothing |
| Text.Split | silence.py:65 | split always yields at least one piece and no piece contains the separator |
| Text.JoinSplit | silence.py:65 | joining the pieces of a split with the separator gives the original string back |
| Text.SplitNoSeparator | silence.py:65 | a string without the separator splits into itself alone |
| Text.SplitAtSeparator | silence.py:65 | the split of a + sep + b is a followed by the split of b |
| Text.SplitJoin | silence.py:208-209 | a list of separator-free entries joined with the separator splits back into exactly that list |
| Text.SplitFirst | silence.py:194 | split('@', 1) fails exactly when the line has no '@'; otherwise tag + '@' + payload is the line and the tag holds no '@' |
| Text.SplitFirstAt | silence.py:194 | a line tag + '@' + payload with an '@'-free tag splits into exactly that tag and payload |
| Text.ReplaceChar | silence.py:161 | replace keeps the length, leaves every other character in place and turns every ' ' into 'T', so none remains |
| Text.DigitRuns | silence.py:197 | every string findall('\d+') returns is a non-empty run of digits |
| Text.DigitRunsEmpty | silence.py:197 | findall finds nothing exactly when the text has no digit |
| Text.DigitRunsAppend | silence.py:197 | when no run straddles the boundary, the runs of a + b are the runs of a then those of b |
| Text.DigitRunsOfRun | silence.py:197 | a maximal digit run at the start of the text is found first, whole |
| Text.MaximalRun | silence.py:197 | a digit run bounded by non-digits is found whole, between the runs before and after it |
| Text.NatToString | silence.py:205-206 | str() of a non-negative integer is a digit run without a leading zero |
| Text.Join | silence.py:209 | ','.join(list): the pieces with the separator between consecutive ones; SplitJoin and JoinSplit make it the inverse of split |
| Text.DecimalValue | silence.py:200-201 | int() of a digit string, most significant digit first; DecimalRoundTrip makes it the inverse of str() |
| Text.DecimalRoundTrip | silence.py:200-201 | int() of str(n) is n |
| Text.IntToString | silence.py:99 | str() of an integer is its digits without a leading zero, with a leading '-' for a negative one, and reads back as the integer |
| Presets.Validate | silence.py:46-55 | a missing or empty field is not supplied; a supplied field is either invalid, exactly when float() rejects it and keeping its raw text, or the float float() returns |
| Presets.Fields | silence.py:79 | one field per piece of split(','), the k-th field being the k-th piece stripped |
| Presets.FieldsClean | silence.py:79 | no field has surrounding whitespace or contains a comma |
| Presets.ArgFields | silence.py:65-67 | vals[0:6]: the first six fields, or all of them when there are fewer |
| Presets.FieldAt | silence.py:67 | the i-th value map() hands to `_validate`: the i-th field when there is one, None (Python 2 pads the shorter list) exactly when the list is too short; also at lines 85-86 |
| Presets.PresetFields | silence.py:79-86 | vals[1:7]: the six fields after the pattern, or as many as there are |
| Presets.ApplyFields | silence.py:67-69 | the i-th parameter takes the float of the i-th field when that field is supplied and parses; every other parameter keeps its value |
| Presets.Message | silence.py:53-54 | the text the logger receives for an invalid field (naming the parameter and the raw value) and for a missing preset file (line 94) |
| Presets.ReportOf | silence.py:52-54 | `_validate` logs for the i-th parameter exactly one `InvalidPreset(i, fields[i])` when that field is `Rejected`, and nothing otherwise |
| Presets.Reports | silence.py:53-54 | validating the first n fields logs, in parameter order, one `InvalidPreset(p, fields[p])` per logged field p, each one rejected |
| Presets.ReportsComplete | silence.py:48-54 | every rejected field among the first n is logged |
| Presets.NoReports | silence.py:48-54 | validation logs no error exactly when no field is `Rejected` (supplied, non-empty and refused by float()) |
| Presets.SilentFieldsParse | silence.py:48-54 | a validation that logs nothing has no rejected field |
| Presets.ReportedFieldFails | silence.py:50-54 | a validation that logs an error has a supplied, non-empty field float() rejects |
| Presets.SilentPrefix | silence.py:67 | when validating the first n fields logs nothing, none of them is rejected |
| Presets.ApplyIgnoresExtraFields | silence.py:67 | fields past the sixth are never consulted |
| Presets.ApplyIdempotent | silence.py:69 | applying the same fields twice is the same as applying them once |
| Presets.PresetFieldsOfPieces | silence.py:79-86 | for a preset line of unpadded pieces, the fields applied are the six pieces after the pattern |
| Presets.ThresholdOnlyFields | silence.py:79-86 | a line "pattern,x,,,,," hands x as the threshold and five empty fields |
| Presets.NewsPresetFields | silence.py:79-86 | the line "^News,-70,,,,," gives the fields "-70" and five empty ones |
| Presets.NewsPieces | silence.py:79 | "^News,-70,,,,," splits on ',' into "^News", "-70" and five empty pieces |
| Presets.NewsPresetLine | silence.py:79-89 | applied to the defaults, the line "^News,-70,,,,," sets the threshold to -70.0 and keeps the rest |
| Presets.FirstFieldOnly | silence.py:85-89 | a valid first field with five empty ones changes the first parameter alone |
| Presets.IsPresetLine | silence.py:77-78 | a preset line is non-blank and not a comment once stripped |
| Presets.PatternOf | silence.py:79-81 | the pattern is the first comma piece of the stripped line, stripped; it has no surrounding whitespace and no comma |
| Presets.Matches | silence.py:82 | the pattern matches at the start of the title or of the callsign, ignoring case |
| Presets.FindFrom | silence.py:76-90 | the scan stops at the first line that is a preset line and either matches title or callsign or has a pattern that does not compile; every line before it is blank, a comment, or a compiling non-matching pattern |
| Presets.FindPreset | silence.py:76-90 | the scan from the file's first line: a found or bad line is a preset line at a valid index that matches, or whose pattern does not compile; every line before where it stops is passed over |
| Presets.FindFromExtend | silence.py:76-90 | once the scan has stopped, appending lines does not change where it stops |
| Presets.ScanPresets | silence.py:76-90 | the loop over the file's lines stops exactly where FindPreset says: the first preset line that matches or whose pattern does not compile |
| Presets.LaterLinesIgnored | silence.py:82-90 | first match wins: lines after the matching line are never consulted |
| Presets.PresetStore.constructor | silence.py:41-44 | argdict starts with the six names in canonical order, each with its default, and nothing logged |
| Presets.PresetStore.Update | silence.py:67-69 | the values become ApplyFields of the old values; one error is logged per rejected field; names and order are kept |
| Presets.PresetStore.GetFromArg | silence.py:61-69 | an empty argument changes nothing; otherwise its first six stripped fields are applied and their rejections logged |
| Presets.PresetStore.GetFromFile | silence.py:71-95 | an unopenable file logs `PresetFileMissing` and changes nothing; otherwise the outcome is where the scan stopped; a match applies that line's six fields after the pattern; no match or a bad pattern changes nothing |
| Presets.PresetStore.GetValues | silence.py:97-99 | yields str() of each value in argname order, the i-th being the value stored under the i-th name |
| Presets.ValuesOf | silence.py:99 | argdict.values(): one value per entry, the k-th being the k-th entry's value, in insertion order |
| Presets.Show | silence.py:99 | str() of one value: the decimal text of an int, the float formatting of a float |
| Presets.ShowAll | silence.py:99 | str() of each value, in order |
| Presets.LookupFirst | silence.py:44 | looking a name up in the ordered dictionary finds its first occurrence |
| Presets.Lookup | silence.py:44 | argdict[name] finds nothing exactly when no entry carries the name, and a value found is stored under that name |
| Presets.LookupCanonical | silence.py:41-44 | with canonical keys, each name maps to the value at its position |
| Presets.DefaultArguments | silence.py:41-42 | with no override the analyzer gets "-75", str(0.16), "6", "120", "120", str(0.48) |
| Presets.ResolvePresets | silence.py:164-169 | a non-empty --preset applies its first six fields and logs their rejections, and no file is read; otherwise a non-empty --presetfile is scanned: an unopenable file reports "not found", logs `PresetFileMissing` and changes no value; a match applies that line's six fields after the pattern and logs their rejections; no match or a bad pattern changes nothing; with neither option the values and the log stay as they were |
| Notify.ProgId | silence.py:161 | the id is chanid, '_' and the start time with every space turned into 'T' and every other character kept |
| Notify.Entries | silence.py:205-207 | two entries per break, in order: "start:4" then "end:5" |
| Notify.EntryText | silence.py:205-206 | the entry str(offset) + ':' + str(code) |
| Notify.EntryRoundTrip | silence.py:205-206 | an entry holds no ',' and a player reads its offset back from it |
| Notify.EntriesRoundTrip | silence.py:205-209 | the entry list reads back as exactly the skip list |
| Notify.EntriesCommaFree | silence.py:205-207 | no entry contains a ',' |
| Notify.EntriesDecode | silence.py:205-207 | the entries decode, two at a time, back to exactly the marks |
| Notify.SkipListRoundTrip | silence.py:208-209 | the list part of the message splits into two entries per break and reads back as the whole skip list, in order |
| Notify.UpdateMessage | silence.py:208-209 | 'COMMFLAG_UPDATE ' + progId + ' ' + the entries joined with ',' |
| Notify.MessageCarriesSkipList | silence.py:205-209 | the message is the command word and program id followed by a list part from which the whole skip list reads back, in order |
| Notify.BackendCommand | silence.py:211 | the command handed to the backend: "MESSAGE[]:[]" followed by the message |
| Notify.CommandCarriesMessage | silence.py:211 | the command is the header "MESSAGE[]:[]" followed by the whole message, unchanged |
| Notify.ThreeBreaks | silence.py:205-209 | three breaks give the six entries in the order found |
| Markup.SeverityOf | silence.py:190 | the level table knows exactly info, debug and err, and none of them is the warning level |
| Markup.FailureReport | silence.py:213-214 | the error text for a reply other than OK: the reply and the full backend command |
| Markup.Parse | silence.py:194-197 | a line is unsplittable exactly when it has no '@' |
| Markup.ParseTagged | silence.py:194-197 | tag@payload with an '@'-free tag is a cut carrying the payload's digit runs when the tag is "cut", and a tagged line otherwise |
| Markup.Step | silence.py:193-219 | one iteration on a parsed line: the fault it raises, or the new skip list, count, log and messages (characterised by StepCut, StepLogOnly and StepFault) |
| Markup.RunSpec | silence.py:191-221 | the lines in order, stopping at the first that raises (characterised by RunCompletes, RunGrowth, RunCrash and RunConsistent) |
| Markup.Consumed | silence.py:191-193 | the loop reads the stream up to, not including, the first empty read; every line read is non-empty |
| Markup.FaultOf | silence.py:194-201 | a line raises exactly when it has no '@' or is a cut with fewer than two numbers |
| Markup.MarkOf | silence.py:197-201 | a line yields a break exactly when it is a cut with at least two numbers |
| Markup.TwoRuns | silence.py:197 | a payload with two numbers separated by non-digits has those two numbers as its first two runs |
| Markup.CutLineMark | silence.py:197-201 | a cut payload printing start and end as decimals yields exactly the break (start, end) |
| Markup.StepCut | silence.py:197-214 | a good cut logs its payload, appends its break, counts it, sends the whole list; the log gains the payload alone when the reply is OK, and the payload then one ERR entry naming the reply and the command otherwise |
| Markup.StepLogOnly | silence.py:215-219 | another tag logs one entry (the payload at its level, or the tag as a warning) and leaves the list, count and messages alone |
| Markup.StepFault | silence.py:194-201 | a line crashes the loop exactly when it raises on its own, without touching list, count or messages |
| Markup.UnknownTag | silence.py:217-219 | an unknown tag logs the tag as a warning and changes nothing else |
| Markup.BogusLine | silence.py:217-219 | "bogus@hello\n" logs the warning "bogus" and nothing else |
| Markup.StepSummary | silence.py:195-219 | a line that does not raise adds its own break, if any, to the list, the count and the messages |
| Markup.RunCompletes | silence.py:191-221 | the stream runs to its end exactly when none of its lines raises |
| Markup.RunGrowth | silence.py:191-221 | on lines that do not raise, the list grows by the cut lines' breaks in order, and the count and the messages by their number |
| Markup.CutMarksCount | silence.py:200-203 | on lines that do not raise there is one break per cut line |
| Markup.RunAppend | silence.py:191-221 | reading good lines and then more is reading the more from the state the good lines left |
| Markup.RunCrash | silence.py:194-201 | the first raising line ends the run with its exception, after exactly the lines before it |
| Markup.StepConsistent | silence.py:200-209 | one line keeps count = list length = messages, the k-th message carrying the list as it stood after the k-th break |
| Markup.RunConsistent | silence.py:191-221 | that invariant holds after any stream, whether it ends cleanly or with an exception |
| Markup.NoCutsNoBreaks | silence.py:189-221 | a stream without cut lines ends with no break and an empty list |
| Markup.NoCutEvents | silence.py:195-203 | without cut lines there is no break and no count |
| Markup.RunFrom | silence.py:191-221 | the run from a line is that line's step followed by the run from the next line |
| Markup.Session.constructor | silence.py:161 | progId is built from chanid and starttime; the session starts with an empty list, count 0, and satisfies the invariant |
| Markup.Session.HandleLine | silence.py:193-219 | the new state, and the exception if any, are exactly Step of the old state and the parsed line |
| Markup.Session.Run | silence.py:191-221 | the loop ends in exactly the state RunSpec gives for the lines read, with the exception if one is raised, or else with its break count |
| Markup.SessionSummary | silence.py:189-229 | a session whose lines do not raise ends with the cut lines' breaks in order, as many as counted, each sent as the full list so far |

## Left out

- Logging backend: MYLOG's formatting (the 'mythcommflag: ' prefix and the trailing-newline rstrip at silence.py:30-34) is not modelled. Log entries keep the raw text and the level.
- PRESET's debug and info messages (silence.py:63, 73, 83, 92, including the for-else "No preset found" message) are not modelled. Only the ERR messages (an invalid field, a missing file) are recorded in `PresetStore.errors`, as `ErrorReport` values whose text `Message` gives.
- MythTV objects are not modelled: the database, Job, Recorded, Channel, findfile and BECache (silence.py:121-158). `rec.update()` persistence is not modelled either; the skip list is the session's `marks`.
- argparse and job/argument selection (silence.py:105-135) are not modelled; `ResolvePresets` takes the two options as `Option<string>`.
- The subprocess chain (tail, mythffmpeg, the analyzer at silence.py:179-186) is not modelled. Its output is the `stream` of lines, and its arguments are `GetValues`.
- Float parsing and formatting, the regular-expression engine, the file system and the backend reply are function parameters, not written out.
- `re.compile` on a bad pattern raises an uncaught error. The model stops the scan with `BadPattern` and applies nothing. It does not model the script ending there.
- `argdict` is a class attribute shared by every PRESET instance. The model gives each `PresetStore` its own entries, which is the same for the single instance the script creates.
- The final status update (commflagged = 1, job status 272, "Detected N adverts", silence.py:224-229) and the sleep at line 234 are not modelled. `Session.Run` returns the break count they report.
- `rec.markup.clean()` (line 175) is modelled as the empty skip list a `Session` starts with, not as a database operation.
- A cut line with exactly one number appends its start mark in memory before `numbers[1]` raises (line 201). It is never written out, because `rec.update()` is not reached. The model leaves the skip list unchanged on that fault.
- The order of `rec.markup.getskiplist()` (line 207) is assumed to be the order the breaks were appended. The code does not check that start < end, and neither does the model.
- MARK_COMM_START = 4 and MARK_COMM_END = 5 are MythTV's markup type values. They do not appear in the script itself.
- Whitespace and digits are ASCII, as in Python 2 byte strings. The script is taken to run under Python 2: it concatenates `str` with `.encode()` results, and its `map` pads a short field list with None.
