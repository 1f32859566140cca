/**
 * The presets: the six numeric parameters passed to the silence
 * analyzer, held in a fixed order and overridden positionally from a
 * comma-separated argument or from the first matching line of a preset
 * file (class PRESET of silence.py).
 *
 * Float parsing, float formatting and the regular-expression engine are
 * not written out: they are passed in as functions.
 */
module Presets {
  import opened Wrappers
  import opened Text

  /** A Python float: a finite value, an infinity or NaN (float('inf') is accepted). */
  datatype PyFloat = Finite(r: real) | Infinity(negative: bool) | NaN

  /** A parameter value: the defaults -75, 6 and 120 are Python ints, everything parsed is a float. */
  datatype Num = IntNum(i: int) | FloatNum(f: PyFloat)

  /** The regular-expression engine: whether a pattern compiles, and
      re.match with IGNORECASE (a match anchored at the start only). */
  datatype RegexEngine = RegexEngine(compiles: string -> bool, prefixMatchCI: (string, string) -> bool)

  const ParamCount: nat := 6

  const ArgNames: seq<string> := ["thresh", "minquiet", "mindetect", "minbreak", "maxsep", "pad"]

  const Defaults: seq<Num> :=
    [IntNum(-75), FloatNum(Finite(0.16)), IntNum(6), IntNum(120), IntNum(120), FloatNum(Finite(0.48))]

  /** What _validate makes of one field. Invalid is the case that logs an error. */
  datatype Validated = Missing | Invalid(raw: string) | Valid(value: Num)

  /** _validate: no field or an empty one is not supplied; otherwise float(v), or invalid. */
  function Validate(v: Option<string>, parseFloat: string -> Option<PyFloat>): (r: Validated)
    ensures r.Missing? <==> v == None || v == Some("")
    ensures r.Invalid? <==> v.Some? && v.value != "" && parseFloat(v.value) == None
    ensures r.Invalid? ==> r.raw == v.value
    ensures r.Valid? ==> v.Some? && r.value.FloatNum? && parseFloat(v.value) == Some(r.value.f)
  {
    match v
    case None => Missing
    case Some(s) =>
      if s == "" then Missing
      else match parseFloat(s)
        case None => Invalid(s)
        case Some(f) => Valid(FloatNum(f))
  }

  /** [i.strip() for i in line.split(',')] */
  function Fields(line: string): (r: seq<string>)
    ensures |r| == |Split(line, ',')| >= 1
    ensures forall k :: 0 <= k < |r| ==> r[k] == Strip(Split(line, ',')[k])
  {
    var parts := Split(line, ',');
    seq(|parts|, k requires 0 <= k < |parts| => Strip(parts[k]))
  }

  /** Every field is free of surrounding whitespace and of commas. */
  lemma FieldsClean(line: string)
    ensures forall k :: 0 <= k < |Fields(line)| ==> Unpadded(Fields(line)[k]) && ',' !in Fields(line)[k]
  {
    var parts, r := Split(line, ','), Fields(line);
    forall k | 0 <= k < |r|
      ensures Unpadded(r[k]) && ',' !in r[k]
    {
      var piece, lead := parts[k], LeadingSpaces(parts[k]);
      assert r[k] == piece[lead..lead + |r[k]|];
      assert forall j :: 0 <= j < |r[k]| ==> r[k][j] == piece[lead + j];
    }
  }

  function Take(xs: seq<string>, n: nat): (r: seq<string>)
    ensures |r| <= n && |r| <= |xs| && r == xs[..|r|]
    ensures |xs| >= n ==> |r| == n
  {
    if |xs| <= n then xs else xs[..n]
  }

  /** vals[0:6]: the fields of a --preset argument. */
  function ArgFields(line: string): (r: seq<string>)
    ensures |r| == if |Fields(line)| < ParamCount then |Fields(line)| else ParamCount
    ensures r == Fields(line)[..|r|]
  {
    Take(Fields(line), ParamCount)
  }

  /** vals[1:7]: the fields after the pattern on a preset-file line. */
  function PresetFields(line: string): (r: seq<string>)
    ensures |r| == if |Fields(line)| - 1 < ParamCount then |Fields(line)| - 1 else ParamCount
    ensures r == Fields(line)[1..1 + |r|]
  {
    var r := Take(Fields(line)[1..], ParamCount);
    assert Fields(line)[1..][..|r|] == Fields(line)[1..1 + |r|];
    r
  }

  /** The i-th value map() hands to _validate: Python 2's map pads a short list with None. */
  function FieldAt(fields: seq<string>, i: nat): (r: Option<string>)
    ensures r.None? <==> |fields| <= i
    ensures r.Some? ==> r.value == fields[i]
  {
    if i < |fields| then Some(fields[i]) else None
  }

  /**
   * argdict.update(v for v in validargs if v[1] is not None): each
   * parameter whose field is supplied and parses takes the parsed value,
   * every other parameter keeps the value it had.
   */
  function ApplyFields(values: seq<Num>, fields: seq<string>, parseFloat: string -> Option<PyFloat>): (r: seq<Num>)
    requires |values| == ParamCount
    ensures |r| == ParamCount
    ensures forall i :: 0 <= i < ParamCount && (i >= |fields| || fields[i] == "" || parseFloat(fields[i]) == None) ==>
      r[i] == values[i]
    ensures forall i :: 0 <= i < ParamCount && i < |fields| && fields[i] != "" && parseFloat(fields[i]).Some? ==>
      r[i] == FloatNum(parseFloat(fields[i]).value)
  {
    seq(ParamCount, i requires 0 <= i < ParamCount =>
      match Validate(FieldAt(fields, i), parseFloat)
      case Valid(x) => x
      case _ => values[i])
  }

  /** An error PRESET sends to the logger: a field float() rejects, or a preset file that cannot be opened. */
  datatype ErrorReport = InvalidPreset(param: nat, raw: string) | PresetFileMissing(filename: string)

  /** The text of an error, as the logger receives it. */
  function Message(e: ErrorReport): string
    requires e.InvalidPreset? ==> e.param < ParamCount
  {
    match e
    case InvalidPreset(param, raw) => "Preset " + ArgNames[param] + " (" + raw + ") is invalid - will use default"
    case PresetFileMissing(filename) => "Presets file \"" + filename + "\" not found"
  }

  /** What _validate logs for the i-th field: one error if float() rejects it, nothing otherwise. */
  function ReportOf(fields: seq<string>, parseFloat: string -> Option<PyFloat>, i: nat): (r: seq<ErrorReport>)
    requires i < ParamCount
    ensures Rejected(fields, parseFloat, i) ==> r == [InvalidPreset(i, fields[i])]
    ensures !Rejected(fields, parseFloat, i) ==> r == []
  {
    match Validate(FieldAt(fields, i), parseFloat)
    case Invalid(raw) => [InvalidPreset(i, raw)]
    case _ => []
  }

  /** The i-th field is supplied, non-empty, and rejected by float(): the case _validate logs. */
  predicate Rejected(fields: seq<string>, parseFloat: string -> Option<PyFloat>, i: nat) {
    i < |fields| && fields[i] != "" && parseFloat(fields[i]).None?
  }

  /**
   * The errors logged while validating the first n fields: one per
   * rejected field, naming it and carrying its raw text, in parameter order.
   */
  function Reports(fields: seq<string>, parseFloat: string -> Option<PyFloat>, n: nat): (r: seq<ErrorReport>)
    requires n <= ParamCount
    ensures |r| <= n
    ensures forall k :: 0 <= k < |r| ==>
      r[k].InvalidPreset? && r[k].param < n && Rejected(fields, parseFloat, r[k].param) && r[k].raw == fields[r[k].param]
    ensures forall k, j :: 0 <= k < j < |r| ==> r[k].param < r[j].param
  {
    if n == 0 then []
    else
      var before, last := Reports(fields, parseFloat, n - 1), ReportOf(fields, parseFloat, n - 1);
      before + last
  }

  /** Every rejected field among the first n is reported. */
  lemma {:induction false} ReportsComplete(fields: seq<string>, parseFloat: string -> Option<PyFloat>, n: nat, p: nat)
    requires p < n <= ParamCount && Rejected(fields, parseFloat, p)
    ensures exists k :: 0 <= k < |Reports(fields, parseFloat, n)| && Reports(fields, parseFloat, n)[k].param == p
  {
    var before: seq<ErrorReport>, last: seq<ErrorReport> := Reports(fields, parseFloat, n - 1), ReportOf(fields, parseFloat, n - 1);
    assert Reports(fields, parseFloat, n) == before + last;
    var all := before + last;
    if p == n - 1 {
      assert Rejected(fields, parseFloat, n - 1);
      assert last[0].param == p;
      assert all[|before|] == last[0];
    } else {
      ReportsComplete(fields, parseFloat, n - 1, p);
      var k: nat :| k < |before| && before[k].param == p;
      assert all[k] == before[k];
    }
  }

  /** An error is logged exactly when some parameter's field is supplied, non-empty and rejected by float(). */
  lemma NoReports(fields: seq<string>, parseFloat: string -> Option<PyFloat>, n: nat)
    requires n <= ParamCount
    ensures Reports(fields, parseFloat, n) == [] <==> forall i :: 0 <= i < n ==> !Rejected(fields, parseFloat, i)
  {
    if Reports(fields, parseFloat, n) == [] {
      SilentFieldsParse(fields, parseFloat, n);
    } else {
      ReportedFieldFails(fields, parseFloat, n);
    }
  }

  /** A validation that logs nothing has no rejected field. */
  lemma SilentFieldsParse(fields: seq<string>, parseFloat: string -> Option<PyFloat>, n: nat)
    requires n <= ParamCount && Reports(fields, parseFloat, n) == []
    ensures forall i :: 0 <= i < n ==> !Rejected(fields, parseFloat, i)
  {
    forall i | 0 <= i < n
      ensures !Rejected(fields, parseFloat, i)
    {
      SilentPrefix(fields, parseFloat, n, i);
    }
  }

  /** When the first n fields log nothing, none of them is rejected. */
  lemma {:induction false} SilentPrefix(fields: seq<string>, parseFloat: string -> Option<PyFloat>, n: nat, i: nat)
    requires i < n <= ParamCount && Reports(fields, parseFloat, n) == []
    ensures !Rejected(fields, parseFloat, i)
  {
    var before: seq<ErrorReport>, last: seq<ErrorReport> := Reports(fields, parseFloat, n - 1), ReportOf(fields, parseFloat, n - 1);
    assert Reports(fields, parseFloat, n) == before + last;
    if i < n - 1 {
      assert before == [];
      SilentPrefix(fields, parseFloat, n - 1, i);
    } else {
      assert last == [];
    }
  }

  /** A validation that logs an error has a rejected field. */
  lemma ReportedFieldFails(fields: seq<string>, parseFloat: string -> Option<PyFloat>, n: nat)
    requires n <= ParamCount && Reports(fields, parseFloat, n) != []
    ensures exists i :: 0 <= i < n && Rejected(fields, parseFloat, i)
  {
    var first := Reports(fields, parseFloat, n)[0];
    assert first.param < n && Rejected(fields, parseFloat, first.param);
  }

  /** Fields past the sixth are ignored. */
  lemma ApplyIgnoresExtraFields(values: seq<Num>, fields: seq<string>, parseFloat: string -> Option<PyFloat>)
    requires |values| == ParamCount && |fields| > ParamCount
    ensures ApplyFields(values, fields, parseFloat) == ApplyFields(values, fields[..ParamCount], parseFloat)
  {
  }

  /** Applying the same fields twice gives what applying them once gives. */
  lemma ApplyIdempotent(values: seq<Num>, fields: seq<string>, parseFloat: string -> Option<PyFloat>)
    requires |values| == ParamCount
    ensures ApplyFields(ApplyFields(values, fields, parseFloat), fields, parseFloat)
         == ApplyFields(values, fields, parseFloat)
  {
  }

  /** The fields after the pattern of a line whose pieces carry no surrounding whitespace. */
  lemma PresetFieldsOfPieces(line: string, xs: seq<string>)
    requires Split(line, ',') == xs && |xs| > ParamCount
    requires forall k :: 0 <= k < |xs| ==> Unpadded(xs[k])
    ensures PresetFields(line) == xs[1..ParamCount + 1]
  {
    var f := Fields(line);
    forall k | 0 <= k < |xs|
      ensures f[k] == xs[k]
    {
      StripUnchanged(xs[k]);
    }
    assert f == xs;
    assert f[1..][..ParamCount] == xs[1..ParamCount + 1];
  }

  /** A line that gives a pattern and the threshold, and leaves the other five fields empty. */
  lemma {:induction false} ThresholdOnlyFields(line: string, xs: seq<string>)
    requires |xs| == ParamCount + 1 && forall k :: 2 <= k < |xs| ==> xs[k] == ""
    requires Unpadded(xs[0]) && Unpadded(xs[1])
    requires Split(line, ',') == xs
    ensures PresetFields(line) == [xs[1], "", "", "", "", ""]
  {
    ThresholdPieces(xs);
    PresetFieldsOfPieces(line, xs);
  }

  lemma ThresholdPieces(xs: seq<string>)
    requires |xs| == ParamCount + 1 && forall k :: 2 <= k < |xs| ==> xs[k] == ""
    requires Unpadded(xs[0]) && Unpadded(xs[1])
    ensures forall k :: 0 <= k < |xs| ==> Unpadded(xs[k])
    ensures xs[1..ParamCount + 1] == [xs[1], "", "", "", "", ""]
  {
  }

  /** The pieces of "^News,-70,,,,," between its commas. */
  const NewsPieceList: seq<string> := ["^News", "-70", "", "", "", "", ""]

  /** The fields after the pattern of the sample line "^News,-70,,,,,". */
  lemma {:induction false} NewsPresetFields(line: string)
    requires line == "^News,-70,,,,,"
    ensures PresetFields(line) == ["-70", "", "", "", "", ""]
  {
    var xs := NewsPieces(line);
    ThresholdOnlyFields(line, xs);
  }

  /** "^News,-70,,,,," splits into the pattern, the threshold and five empty pieces. */
  lemma {:induction false} NewsPieces(line: string) returns (xs: seq<string>)
    requires line == "^News,-70,,,,,"
    ensures xs == NewsPieceList && Split(line, ',') == xs
  {
    xs := NewsPieceList;
    assert Join(xs[6..], ',') == "";
    assert Join(xs[5..], ',') == ",";
    assert Join(xs[4..], ',') == ",,";
    assert Join(xs[3..], ',') == ",,,";
    assert Join(xs[2..], ',') == ",,,,";
    assert Join(xs[1..], ',') == "-70,,,,,";
    assert Join(xs, ',') == line;
    assert forall k :: 0 <= k < |xs| ==> ',' !in xs[k];
    SplitJoin(xs, ',');
  }

  /** The preset line "^News,-70,,,,," sets the threshold alone. */
  lemma {:induction false} NewsPresetLine(parseFloat: string -> Option<PyFloat>)
    requires parseFloat("-70") == Some(Finite(-70 as real))
    ensures ApplyFields(Defaults, PresetFields("^News,-70,,,,,"), parseFloat) == Defaults[0 := FloatNum(Finite(-70 as real))]
  {
    NewsPresetFields("^News,-70,,,,,");
    FirstFieldOnly(Defaults, "-70", parseFloat);
  }

  lemma FirstFieldOnly(values: seq<Num>, x: string, parseFloat: string -> Option<PyFloat>)
    requires |values| == ParamCount && x != "" && parseFloat(x).Some?
    ensures ApplyFields(values, [x, "", "", "", "", ""], parseFloat) == values[0 := FloatNum(parseFloat(x).value)]
  {
  }

  /** str(v) of one parameter value. */
  function Show(v: Num, showFloat: PyFloat -> string): string {
    match v
    case IntNum(i) => IntToString(i)
    case FloatNum(f) => showFloat(f)
  }

  /** The value stored under a name in an ordered dictionary of (name, value) entries. */
  function Lookup(entries: seq<(string, Num)>, name: string): (r: Option<Num>)
    ensures r.None? <==> forall k :: 0 <= k < |entries| ==> entries[k].0 != name
    ensures r.Some? ==> (name, r.value) in entries
  {
    if entries == [] then None
    else if entries[0].0 == name then Some(entries[0].1)
    else Lookup(entries[1..], name)
  }

  function ValuesOf(entries: seq<(string, Num)>): (r: seq<Num>)
    ensures |r| == |entries|
    ensures forall k :: 0 <= k < |entries| ==> r[k] == entries[k].1
  {
    seq(|entries|, k requires 0 <= k < |entries| => entries[k].1)
  }

  /** A preset line is one that is neither blank nor a comment once stripped. */
  predicate IsPresetLine(raw: string) {
    var line := Strip(raw);
    line != "" && line[0] != '#'
  }

  /** The pattern of a preset line: its first field. */
  function PatternOf(raw: string): (r: string)
    ensures Unpadded(r) && ',' !in r
    ensures r == Strip(Split(Strip(raw), ',')[0])
  {
    FieldsClean(Strip(raw));
    Fields(Strip(raw))[0]
  }

  predicate Matches(raw: string, title: string, callsign: string, regex: RegexEngine) {
    regex.prefixMatchCI(PatternOf(raw), title) || regex.prefixMatchCI(PatternOf(raw), callsign)
  }

  /** A line the scan passes over: blank, a comment, or a pattern that compiles and matches neither key. */
  predicate PassedOver(raw: string, title: string, callsign: string, regex: RegexEngine) {
    !IsPresetLine(raw) || (regex.compiles(PatternOf(raw)) && !Matches(raw, title, callsign, regex))
  }

  /** A line the scan stops at: a preset line that matches (found), or whose pattern does not compile. */
  predicate StopsAt(raw: string, found: bool, title: string, callsign: string, regex: RegexEngine) {
    IsPresetLine(raw) &&
    if found then regex.compiles(PatternOf(raw)) && Matches(raw, title, callsign, regex)
    else !regex.compiles(PatternOf(raw))
  }

  /** Where the scan of a preset file stops. */
  datatype Search = Found(index: nat) | NotFound | BadPattern(index: nat)

  function StopIndex(r: Search, count: nat): nat {
    if r.NotFound? then count else r.index
  }

  /** The scan of lines[from..]: the first preset line that matches, or whose pattern does not compile. */
  function FindFrom(lines: seq<string>, from: nat, title: string, callsign: string, regex: RegexEngine): (r: Search)
    requires from <= |lines|
    ensures r.Found? ==> from <= r.index < |lines| && StopsAt(lines[r.index], true, title, callsign, regex)
    ensures r.BadPattern? ==> from <= r.index < |lines| && StopsAt(lines[r.index], false, title, callsign, regex)
    ensures forall j :: from <= j < StopIndex(r, |lines|) ==> PassedOver(lines[j], title, callsign, regex)
    decreases |lines| - from
  {
    if from == |lines| then NotFound
    else if PassedOver(lines[from], title, callsign, regex) then FindFrom(lines, from + 1, title, callsign, regex)
    else if regex.compiles(PatternOf(lines[from])) then Found(from)
    else BadPattern(from)
  }

  function FindPreset(lines: seq<string>, title: string, callsign: string, regex: RegexEngine): (r: Search)
    ensures r.Found? ==> r.index < |lines| && StopsAt(lines[r.index], true, title, callsign, regex)
    ensures r.BadPattern? ==> r.index < |lines| && StopsAt(lines[r.index], false, title, callsign, regex)
    ensures forall j :: 0 <= j < StopIndex(r, |lines|) ==> PassedOver(lines[j], title, callsign, regex)
  {
    FindFrom(lines, 0, title, callsign, regex)
  }

  lemma {:induction false} FindFromExtend(lines: seq<string>, rest: seq<string>, from: nat,
                                          title: string, callsign: string, regex: RegexEngine)
    requires from <= |lines|
    requires !FindFrom(lines, from, title, callsign, regex).NotFound?
    ensures FindFrom(lines + rest, from, title, callsign, regex) == FindFrom(lines, from, title, callsign, regex)
    decreases |lines| - from
  {
    assert lines[from] == (lines + rest)[from];
    if from < |lines| && PassedOver(lines[from], title, callsign, regex) {
      FindFromExtend(lines, rest, from + 1, title, callsign, regex);
    }
  }

  /** First match wins: whatever follows the line the scan stopped at is never consulted. */
  lemma LaterLinesIgnored(lines: seq<string>, rest: seq<string>, title: string, callsign: string, regex: RegexEngine)
    requires FindPreset(lines, title, callsign, regex).Found?
    ensures FindPreset(lines + rest, title, callsign, regex) == FindPreset(lines, title, callsign, regex)
  {
    FindFromExtend(lines, rest, 0, title, callsign, regex);
  }

  /**
   * The for loop of getFromFile over the lines of the file: skip blank and
   * comment lines, stop at the first pattern that does not compile or that
   * matches the title or the callsign.
   */
  method ScanPresets(lines: seq<string>, title: string, callsign: string, regex: RegexEngine) returns (r: Search)
    ensures r == FindPreset(lines, title, callsign, regex)
  {
    var i := 0;
    while i < |lines|
      invariant 0 <= i <= |lines|
      invariant FindFrom(lines, i, title, callsign, regex) == FindPreset(lines, title, callsign, regex)
    {
      var line := Strip(lines[i]);
      if line != "" && line[0] != '#' {
        var pattern := PatternOf(lines[i]);
        if !regex.compiles(pattern) {
          return BadPattern(i);
        }
        if regex.prefixMatchCI(pattern, title) || regex.prefixMatchCI(pattern, callsign) {
          return Found(i);
        }
      }
      i := i + 1;
    }
    return NotFound;
  }

  /** The outcome of getFromFile: the file could not be opened, or where the scan stopped. */
  datatype FileOutcome = FileNotFound | Scanned(search: Search)

  /** The preset manager; argdict is an ordered dictionary, kept here as (name, value) entries. */
  class PresetStore {
    var entries: seq<(string, Num)>
    /** The errors sent to the logger (at ERR level), oldest first. */
    var errors: seq<ErrorReport>

    /** The keys are the six parameter names, in canonical order. */
    ghost predicate Valid()
      reads this
    {
      |entries| == ParamCount && forall i :: 0 <= i < ParamCount ==> entries[i].0 == ArgNames[i]
    }

    function Values(): (r: seq<Num>)
      reads this
      requires Valid()
      ensures |r| == ParamCount
    {
      ValuesOf(entries)
    }

    /** argdict starts with the default of every parameter. */
    constructor ()
      ensures Valid() && Values() == Defaults && errors == []
    {
      entries := [(ArgNames[0], Defaults[0]), (ArgNames[1], Defaults[1]), (ArgNames[2], Defaults[2]),
                  (ArgNames[3], Defaults[3]), (ArgNames[4], Defaults[4]), (ArgNames[5], Defaults[5])];
      errors := [];
    }

    /** The update of argdict by the validated fields; keys are neither added, removed nor reordered. */
    method Update(fields: seq<string>, parseFloat: string -> Option<PyFloat>)
      requires Valid()
      modifies this
      ensures Valid()
      ensures Values() == ApplyFields(old(Values()), fields, parseFloat)
      ensures errors == old(errors) + Reports(fields, parseFloat, ParamCount)
    {
      // list(map(self._validate, ...)) validates, and logs, every field before argdict.update
      errors := errors + Reports(fields, parseFloat, ParamCount);
      var i := 0;
      while i < ParamCount
        invariant 0 <= i <= ParamCount && |entries| == ParamCount
        invariant forall k :: 0 <= k < ParamCount ==> entries[k].0 == old(entries[k].0)
        invariant forall k :: 0 <= k < i ==> entries[k].1 == ApplyFields(old(Values()), fields, parseFloat)[k]
        invariant forall k :: i <= k < ParamCount ==> entries[k].1 == old(entries[k].1)
        invariant errors == old(errors) + Reports(fields, parseFloat, ParamCount)
      {
        var v := Validate(FieldAt(fields, i), parseFloat);
        if v.Valid? {
          entries := entries[i := (entries[i].0, v.value)];
        }
        i := i + 1;
      }
    }

    /** getFromArg: an empty argument changes nothing; otherwise its first six fields apply. */
    method GetFromArg(line: string, parseFloat: string -> Option<PyFloat>)
      requires Valid()
      modifies this
      ensures Valid()
      ensures line == "" ==> Values() == old(Values()) && errors == old(errors)
      ensures line != "" ==> Values() == ApplyFields(old(Values()), ArgFields(line), parseFloat)
      ensures line != "" ==> errors == old(errors) + Reports(ArgFields(line), parseFloat, ParamCount)
    {
      if line != "" {
        Update(ArgFields(line), parseFloat);
      }
    }

    /**
     * getFromFile: readFile gives the lines of a file, or None when it
     * cannot be opened (IOError). Only the first preset line whose pattern
     * matches the title or the callsign is applied; a pattern that does
     * not compile stops the scan with an uncaught error.
     */
    method GetFromFile(filename: string, readFile: string -> Option<seq<string>>, title: string, callsign: string,
                       regex: RegexEngine, parseFloat: string -> Option<PyFloat>) returns (outcome: FileOutcome)
      requires Valid()
      modifies this
      ensures Valid()
      ensures var file := readFile(filename);
        (file == None ==> outcome == FileNotFound && Values() == old(Values()) &&
                          errors == old(errors) + [PresetFileMissing(filename)]) &&
        (file.Some? ==> outcome == Scanned(FindPreset(file.value, title, callsign, regex)))
      ensures outcome.Scanned? && outcome.search.Found? ==>
        var fields := PresetFields(Strip(readFile(filename).value[outcome.search.index]));
        Values() == ApplyFields(old(Values()), fields, parseFloat) &&
        errors == old(errors) + Reports(fields, parseFloat, ParamCount)
      ensures outcome.Scanned? && !outcome.search.Found? ==> Values() == old(Values()) && errors == old(errors)
    {
      var file := readFile(filename);
      if file == None {
        errors := errors + [PresetFileMissing(filename)];
        return FileNotFound;
      }
      var lines := file.value;
      var search := ScanPresets(lines, title, callsign, regex);
      if search.Found? {
        Update(PresetFields(Strip(lines[search.index])), parseFloat);
      }
      outcome := Scanned(search);
    }

    /** getValues: str() of each value, in the order of argname. */
    function GetValues(showFloat: PyFloat -> string): (r: seq<string>)
      reads this
      requires Valid()
      ensures |r| == |ArgNames|
      ensures forall i :: 0 <= i < |ArgNames| ==>
        (Lookup(entries, ArgNames[i]) == Some(Values()[i]) && r[i] == Show(Values()[i], showFloat))
    {
      LookupCanonical(entries);
      ShowAll(Values(), showFloat)
    }
  }

  /** Looking a name up finds its first occurrence. */
  lemma {:induction false} LookupFirst(entries: seq<(string, Num)>, k: nat)
    requires k < |entries|
    requires forall j :: 0 <= j < k ==> entries[j].0 != entries[k].0
    ensures Lookup(entries, entries[k].0) == Some(entries[k].1)
  {
    if k > 0 {
      LookupFirst(entries[1..], k - 1);
    }
  }

  /** Under canonical keys, looking a name up finds the entry at that name's position. */
  lemma LookupCanonical(entries: seq<(string, Num)>)
    requires |entries| == ParamCount && forall i :: 0 <= i < ParamCount ==> entries[i].0 == ArgNames[i]
    ensures forall i :: 0 <= i < ParamCount ==> Lookup(entries, ArgNames[i]) == Some(entries[i].1)
  {
    forall i | 0 <= i < ParamCount
      ensures Lookup(entries, ArgNames[i]) == Some(entries[i].1)
    {
      assert forall j :: 0 <= j < i ==> ArgNames[j] != ArgNames[i];
      LookupFirst(entries, i);
    }
  }

  /** With nothing overridden the analyzer gets -75, 0.16, 6, 120, 120, 0.48. */
  lemma DefaultArguments(showFloat: PyFloat -> string)
    ensures ShowAll(Defaults, showFloat) == ["-75", showFloat(Finite(0.16)), "6", "120", "120", showFloat(Finite(0.48))]
  {
    assert NatToString(7) == "7";
    assert NatToString(75) == "75";
    assert IntToString(-75) == "-75";
    assert NatToString(6) == "6";
    assert NatToString(1) == "1";
    assert NatToString(12) == "12";
    assert NatToString(120) == "120";
    assert ShowAll(Defaults, showFloat)[0] == "-75";
  }

  function ShowAll(values: seq<Num>, showFloat: PyFloat -> string): (r: seq<string>)
    ensures |r| == |values|
    ensures forall k :: 0 <= k < |values| ==> r[k] == Show(values[k], showFloat)
  {
    seq(|values|, k requires 0 <= k < |values| => Show(values[k], showFloat))
  }

  /**
   * The choice in main: a non-empty --preset wins; otherwise a non-empty
   * --presetfile is read (readFile gives None when it cannot be opened);
   * otherwise the defaults stay.
   */
  method ResolvePresets(store: PresetStore, preset: Option<string>, presetFile: Option<string>,
                        readFile: string -> Option<seq<string>>, title: string, callsign: string,
                        regex: RegexEngine, parseFloat: string -> Option<PyFloat>) returns (outcome: Option<FileOutcome>)
    requires store.Valid()
    modifies store
    ensures store.Valid()
    ensures preset.Some? && preset.value != "" ==>
      outcome == None &&
      store.Values() == ApplyFields(old(store.Values()), ArgFields(preset.value), parseFloat) &&
      store.errors == old(store.errors) + Reports(ArgFields(preset.value), parseFloat, ParamCount)
    ensures !(preset.Some? && preset.value != "") && presetFile.Some? && presetFile.value != "" ==>
      var file := readFile(presetFile.value);
      (file == None ==> outcome == Some(FileNotFound) && store.Values() == old(store.Values()) &&
                        store.errors == old(store.errors) + [PresetFileMissing(presetFile.value)]) &&
      (file.Some? ==> outcome == Some(Scanned(FindPreset(file.value, title, callsign, regex))))
    ensures outcome.Some? && outcome.value.Scanned? && outcome.value.search.Found? ==>
      presetFile.Some? && readFile(presetFile.value).Some? &&
      outcome.value.search.index < |readFile(presetFile.value).value| &&
      var fields := PresetFields(Strip(readFile(presetFile.value).value[outcome.value.search.index]));
      store.Values() == ApplyFields(old(store.Values()), fields, parseFloat) &&
      store.errors == old(store.errors) + Reports(fields, parseFloat, ParamCount)
    ensures outcome.Some? && outcome.value.Scanned? && !outcome.value.search.Found? ==>
      store.Values() == old(store.Values()) && store.errors == old(store.errors)
    ensures !(preset.Some? && preset.value != "") && !(presetFile.Some? && presetFile.value != "") ==>
      outcome == None && store.Values() == old(store.Values()) && store.errors == old(store.errors)
  {
    outcome := None;
    if preset.Some? && preset.value != "" {
      store.GetFromArg(preset.value, parseFloat);
    } else if presetFile.Some? && presetFile.value != "" {
      var o := store.GetFromFile(presetFile.value, readFile, title, callsign, regex, parseFloat);
      outcome := Some(o);
    }
  }
}
