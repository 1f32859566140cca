/**
 * The read loop of main: each line the silence analyzer prints is
 * "tag@payload"; a cut line adds a break to the skip list and sends the
 * whole list to the players, info/debug/err lines are logged at their
 * level, any other tag is logged as a warning. The loop ends on an empty
 * read. A line without '@' (ValueError) or a cut line with fewer than two
 * numbers (IndexError) ends the script.
 *
 * Parse reads one line into an Event; Step gives the meaning of an event
 * and RunSpec that of a whole stream; the class Session is the loop
 * itself, proved against them.
 */
module Markup {
  import opened Wrappers
  import opened Text
  import opened Notify

  datatype Level = Info | Debug | Err | Warning

  datatype LogEntry = LogEntry(level: Level, text: string)

  /** The exceptions the loop does not catch. */
  datatype Fault =
    | NoSeparator(line: string)       // flag, info = line.split('@', 1) raises ValueError
    | MissingOffsets(payload: string) // numbers[0] or numbers[1] raises IndexError

  /** One line of analyzer output, as the loop reads it. */
  datatype Event =
    | Unsplittable(line: string)                      // no '@' in the line
    | Cut(info: string, numbers: seq<DigitString>)    // tag "cut": the payload and its runs of digits
    | Tagged(flag: string, info: string)              // any other tag

  /** What the session has done so far: skip list, break count, log and messages sent. */
  datatype Trace = Trace(marks: seq<Mark>, breaks: nat, log: seq<LogEntry>, sent: seq<string>)

  datatype StepResult = Continue(next: Trace) | Crash(fault: Fault, last: Trace)

  /** How the session ends: end of stream with the number of breaks, or an uncaught exception. */
  datatype Outcome = Completed(breaks: nat) | Aborted(fault: Fault)

  /** The level table: {'info': INFO, 'debug': DEBUG, 'err': ERR}. */
  function SeverityOf(flag: string): (r: Option<Level>)
    ensures r.Some? <==> flag == "info" || flag == "debug" || flag == "err"
    ensures r.Some? ==> r.value != Warning
  {
    if flag == "info" then Some(Info)
    else if flag == "debug" then Some(Debug)
    else if flag == "err" then Some(Err)
    else None
  }

  function FailureReport(response: string, mesg: string): string {
    "Backend message failed, response = " + response + ", message = " + BackendCommand(mesg)
  }

  /** flag, info = line.split('@', 1), then numbers = re.findall('\d+', info) on a cut line. */
  function Parse(line: string): (e: Event)
    ensures e.Unsplittable? <==> '@' !in line
    ensures e.Unsplittable? ==> e.line == line
  {
    match SplitFirst(line, '@')
    case None => Unsplittable(line)
    case Some((flag, info)) =>
      if flag == "cut" then Cut(info, DigitRuns(info)) else Tagged(flag, info)
  }

  /** The tag is everything before the first '@', the payload everything after it, newline included. */
  lemma ParseTagged(flag: string, info: string)
    requires '@' !in flag
    ensures Parse(flag + "@" + info) == if flag == "cut" then Cut(info, DigitRuns(info)) else Tagged(flag, info)
  {
    assert flag + "@" + info == flag + ['@'] + info;
    SplitFirstAt(flag, info, '@');
  }

  /** One event of the loop; backend gives the reply to a command. */
  function Step(t: Trace, e: Event, progId: string, backend: string -> string): StepResult {
    match e
    case Unsplittable(line) => Crash(NoSeparator(line), t)
    case Cut(info, numbers) =>
      var logged := t.log + [LogEntry(Info, info)];
      if |numbers| < 2 then Crash(MissingOffsets(info), t.(log := logged))
      else
        var marks := t.marks + [Mark(DecimalValue(numbers[0]), DecimalValue(numbers[1]))];
        var mesg := UpdateMessage(progId, marks);
        var result := backend(BackendCommand(mesg));
        var report := if result == "OK" then [] else [LogEntry(Err, FailureReport(result, mesg))];
        Continue(Trace(marks, t.breaks + 1, logged + report, t.sent + [mesg]))
    case Tagged(flag, info) =>
      match SeverityOf(flag)
      case Some(level) => Continue(t.(log := t.log + [LogEntry(level, info)]))
      case None => Continue(t.(log := t.log + [LogEntry(Warning, flag)]))
  }

  /** The events of a stream in order, stopping at a crash. */
  function RunSpec(t: Trace, events: seq<Event>, progId: string, backend: string -> string): StepResult
    decreases |events|
  {
    if events == [] then Continue(t)
    else
      match Step(t, events[0], progId, backend)
      case Crash(f, last) => Crash(f, last)
      case Continue(next) => RunSpec(next, events[1..], progId, backend)
  }

  /** The lines read before readline() first returns "" (end of stream). */
  function Consumed(stream: seq<string>): (r: seq<string>)
    ensures |r| <= |stream| && r == stream[..|r|]
    ensures forall k :: 0 <= k < |r| ==> r[k] != ""
    ensures |r| < |stream| ==> stream[|r|] == ""
  {
    if stream == [] || stream[0] == "" then []
    else [stream[0]] + Consumed(stream[1..])
  }

  /** Each line read, as the loop reads it. */
  function Parsed(lines: seq<string>): (r: seq<Event>)
    ensures |r| == |lines|
  {
    seq(|lines|, k requires 0 <= k < |lines| => Parse(lines[k]))
  }

  // ---------------------------------------------------------------- the events, classified on their own

  /** The exception an event raises, whatever the state it meets. */
  function FaultOf(e: Event): (f: Option<Fault>)
    ensures f.Some? <==> e.Unsplittable? || (e.Cut? && |e.numbers| < 2)
  {
    match e
    case Unsplittable(line) => Some(NoSeparator(line))
    case Cut(info, numbers) => if |numbers| < 2 then Some(MissingOffsets(info)) else None
    case Tagged(_, _) => None
  }

  /** The break a cut line reports: its first two runs of digits. */
  function MarkOf(e: Event): (m: Option<Mark>)
    ensures m.Some? <==> e.Cut? && FaultOf(e) == None
  {
    if e.Cut? && |e.numbers| >= 2 then Some(Mark(DecimalValue(e.numbers[0]), DecimalValue(e.numbers[1])))
    else None
  }

  function MarksOf(e: Event): seq<Mark> {
    if MarkOf(e).Some? then [MarkOf(e).value] else []
  }

  function CutsOf(e: Event): nat {
    if e.Cut? then 1 else 0
  }

  /** The breaks the cut lines of a stream report, in stream order. */
  function CutMarks(events: seq<Event>): seq<Mark> {
    if events == [] then [] else MarksOf(events[0]) + CutMarks(events[1..])
  }

  /** The number of cut lines. */
  function CutCount(events: seq<Event>): nat {
    if events == [] then 0 else CutsOf(events[0]) + CutCount(events[1..])
  }

  /** No line of the stream raises. */
  predicate WellFormed(events: seq<Event>) {
    forall k :: 0 <= k < |events| ==> FaultOf(events[k]) == None
  }

  /** The runs of digits of a payload that prints two numbers separated by non-digits. */
  lemma {:induction false} TwoRuns(a: string, b: string, before: string, between: string, after: string)
    requires IsDigitRun(a) && IsDigitRun(b)
    requires forall k :: 0 <= k < |before| ==> !IsDigit(before[k])
    requires between != [] && forall k :: 0 <= k < |between| ==> !IsDigit(between[k])
    requires after == [] || !IsDigit(after[0])
    ensures DigitRuns(before + a + between + b + after) == [a, b] + DigitRuns(after)
  {
    DigitRunsEmpty(before);
    DigitRunsEmpty(between);
    MaximalRun(between, b, after);
    var tail := between + b + after;
    assert !IsDigit(tail[0]) by {
      assert tail[0] == between[0];
    }
    assert before + a + between + b + after == before + a + tail;
    MaximalRun(before, a, tail);
  }

  /**
   * A cut payload that prints the start and the end offsets as decimal
   * numbers, separated by non-digits, reports exactly that break (the
   * line "cut@" + info parses to Cut(info, DigitRuns(info)), by ParseTagged).
   */
  lemma CutLineMark(start: nat, end: nat, before: string, between: string, after: string, info: string)
    requires forall k :: 0 <= k < |before| ==> !IsDigit(before[k])
    requires between != [] && forall k :: 0 <= k < |between| ==> !IsDigit(between[k])
    requires after == [] || !IsDigit(after[0])
    requires info == before + NatToString(start) + between + NatToString(end) + after
    ensures MarkOf(Cut(info, DigitRuns(info))) == Some(Mark(start, end))
  {
    var a, b := NatToString(start), NatToString(end);
    TwoRuns(a, b, before, between, after);
    var numbers := DigitRuns(info);
    assert numbers[0] == a && numbers[1] == b;
    DecimalRoundTrip(start);
    DecimalRoundTrip(end);
  }

  // ---------------------------------------------------------------- one event

  /**
   * A cut line with two numbers logs its payload, appends exactly one
   * break, counts it, sends the whole list, and logs one error naming the
   * reply and the command when the backend does not answer OK.
   */
  lemma StepCut(t: Trace, e: Event, progId: string, backend: string -> string)
    requires MarkOf(e).Some?
    ensures Step(t, e, progId, backend).Continue?
    ensures var n := Step(t, e, progId, backend).next;
      n.marks == t.marks + [MarkOf(e).value] && n.breaks == t.breaks + 1 &&
      n.sent == t.sent + [UpdateMessage(progId, n.marks)] &&
      var mesg := UpdateMessage(progId, n.marks);
      var reply := backend(BackendCommand(mesg));
      (reply == "OK" ==> n.log == t.log + [LogEntry(Info, e.info)]) &&
      (reply != "OK" ==> n.log == t.log + [LogEntry(Info, e.info), LogEntry(Err, FailureReport(reply, mesg))])
  {
  }

  /** Any other well-formed line leaves the skip list, the count and the messages alone and logs one entry:
      its payload at its own level for info/debug/err, a warning naming the tag otherwise. */
  lemma StepLogOnly(t: Trace, e: Event, progId: string, backend: string -> string)
    requires e.Tagged?
    ensures Step(t, e, progId, backend).Continue?
    ensures var n := Step(t, e, progId, backend).next;
      n.marks == t.marks && n.breaks == t.breaks && n.sent == t.sent && |n.log| == |t.log| + 1 &&
      n.log[..|t.log|] == t.log &&
      (SeverityOf(e.flag).Some? ==> n.log[|t.log|] == LogEntry(SeverityOf(e.flag).value, e.info)) &&
      (SeverityOf(e.flag).None? ==> n.log[|t.log|] == LogEntry(Warning, e.flag))
  {
    var n := Step(t, e, progId, backend).next;
    assert n.log[..|t.log|] == t.log;
  }

  /** An event crashes the loop exactly when it raises on its own; the skip list, count and messages are untouched. */
  lemma StepFault(t: Trace, e: Event, progId: string, backend: string -> string)
    ensures Step(t, e, progId, backend).Crash? <==> FaultOf(e).Some?
    ensures Step(t, e, progId, backend).Crash? ==>
      var c := Step(t, e, progId, backend);
      c.fault == FaultOf(e).value && c.last.marks == t.marks && c.last.breaks == t.breaks && c.last.sent == t.sent
  {
  }

  /** A line with an unknown tag is logged as a warning naming the tag, and nothing else changes. */
  lemma UnknownTag(t: Trace, flag: string, info: string, progId: string, backend: string -> string)
    requires '@' !in flag && flag != "cut" && SeverityOf(flag) == None
    ensures Step(t, Parse(flag + "@" + info), progId, backend) == Continue(t.(log := t.log + [LogEntry(Warning, flag)]))
  {
    ParseTagged(flag, info);
  }

  /** "bogus@hello\n" is a warning "bogus" and nothing else. */
  lemma BogusLine(t: Trace, progId: string, backend: string -> string)
    ensures Step(t, Parse("bogus" + "@" + "hello\n"), progId, backend) == Continue(t.(log := t.log + [LogEntry(Warning, "bogus")]))
  {
    assert "bogus"[0] != "cut"[0] && "bogus"[0] != "info"[0] && "bogus"[0] != "debug"[0] && "bogus"[0] != "err"[0];
    assert forall k :: 0 <= k < |"bogus"| ==> "bogus"[k] != '@';
    UnknownTag(t, "bogus", "hello\n", progId, backend);
  }

  /** One well-formed event in summary: it adds its own break (if any) to the list, the count and the messages. */
  lemma StepSummary(t: Trace, e: Event, progId: string, backend: string -> string)
    requires FaultOf(e) == None
    ensures Step(t, e, progId, backend).Continue?
    ensures var n := Step(t, e, progId, backend).next;
      n.marks == t.marks + MarksOf(e) && n.breaks == t.breaks + CutsOf(e) && |n.sent| == |t.sent| + CutsOf(e)
  {
    if e.Cut? {
      StepCut(t, e, progId, backend);
    } else {
      StepLogOnly(t, e, progId, backend);
    }
  }

  // ---------------------------------------------------------------- a whole stream

  /** The stream runs to its end exactly when none of its lines raises on its own. */
  lemma {:induction false} RunCompletes(t: Trace, events: seq<Event>, progId: string, backend: string -> string)
    ensures RunSpec(t, events, progId, backend).Continue? <==> WellFormed(events)
    decreases |events|
  {
    if events != [] {
      var r := Step(t, events[0], progId, backend);
      StepFault(t, events[0], progId, backend);
      if r.Continue? {
        RunCompletes(r.next, events[1..], progId, backend);
        assert forall k :: 1 <= k < |events| ==> events[k] == events[1..][k - 1];
      }
    }
  }

  /** On well-formed lines the skip list grows by the cut lines' breaks, in order, and the count and the messages by their number. */
  lemma {:induction false} RunGrowth(t: Trace, events: seq<Event>, progId: string, backend: string -> string)
    requires WellFormed(events)
    ensures RunSpec(t, events, progId, backend).Continue?
    ensures var n := RunSpec(t, events, progId, backend).next;
      n.marks == t.marks + CutMarks(events) && n.breaks == t.breaks + CutCount(events) &&
      |n.sent| == |t.sent| + CutCount(events)
    decreases |events|
  {
    if events != [] {
      assert FaultOf(events[0]) == None;
      StepSummary(t, events[0], progId, backend);
      var next := Step(t, events[0], progId, backend).next;
      var rest := events[1..];
      assert WellFormed(rest) by {
        forall k | 0 <= k < |rest|
          ensures FaultOf(rest[k]) == None
        {
          assert rest[k] == events[k + 1];
        }
      }
      RunGrowth(next, rest, progId, backend);
      assert RunSpec(t, events, progId, backend) == RunSpec(next, rest, progId, backend);
      assert t.marks + (MarksOf(events[0]) + CutMarks(rest)) == (t.marks + MarksOf(events[0])) + CutMarks(rest);
    }
  }

  /** On well-formed lines there is one break per cut line. */
  lemma {:induction false} CutMarksCount(events: seq<Event>)
    requires WellFormed(events)
    ensures |CutMarks(events)| == CutCount(events)
  {
    if events != [] {
      assert FaultOf(events[0]) == None;
      assert WellFormed(events[1..]) by {
        forall k | 0 <= k < |events| - 1
          ensures FaultOf(events[1..][k]) == None
        {
          assert events[1..][k] == events[k + 1];
        }
      }
      CutMarksCount(events[1..]);
    }
  }

  /** Reading well-formed lines and then more is reading the more from where the first ones left off. */
  lemma {:induction false} RunAppend(t: Trace, done: seq<Event>, more: seq<Event>, progId: string, backend: string -> string)
    requires WellFormed(done)
    ensures RunSpec(t, done, progId, backend).Continue?
    ensures RunSpec(t, done + more, progId, backend) == RunSpec(RunSpec(t, done, progId, backend).next, more, progId, backend)
    decreases |done|
  {
    if done == [] {
      assert done + more == more;
    } else {
      assert FaultOf(done[0]) == None;
      StepFault(t, done[0], progId, backend);
      var next := Step(t, done[0], progId, backend).next;
      var rest := done[1..];
      assert WellFormed(rest) by {
        forall j | 0 <= j < |rest|
          ensures FaultOf(rest[j]) == None
        {
          assert rest[j] == done[j + 1];
        }
      }
      var events := done + more;
      assert events[0] == done[0] && events[1..] == rest + more;
      RunAppend(next, rest, more, progId, backend);
      assert RunSpec(t, events, progId, backend) == RunSpec(next, rest + more, progId, backend);
      assert RunSpec(t, done, progId, backend) == RunSpec(next, rest, progId, backend);
    }
  }

  /** The first line that raises ends the run: every line before it has been applied, none after it. */
  lemma RunCrash(t: Trace, done: seq<Event>, e: Event, after: seq<Event>, progId: string, backend: string -> string)
    requires WellFormed(done) && FaultOf(e).Some?
    ensures var r := RunSpec(t, done + [e] + after, progId, backend);
      r.Crash? && r.fault == FaultOf(e).value &&
      r.last.marks == t.marks + CutMarks(done) && r.last.breaks == t.breaks + CutCount(done)
  {
    RunGrowth(t, done, progId, backend);
    assert done + [e] + after == done + ([e] + after);
    RunAppend(t, done, [e] + after, progId, backend);
    var n := RunSpec(t, done, progId, backend).next;
    StepFault(n, e, progId, backend);
    assert ([e] + after)[0] == e;
    assert RunSpec(n, [e] + after, progId, backend) == Step(n, e, progId, backend);
  }

  /**
   * What the loop keeps true: one break per mark, one message per mark,
   * and the k-th message carries the whole skip list as it stood after
   * the k-th break.
   */
  predicate Consistent(t: Trace, progId: string) {
    t.breaks == |t.marks| && |t.sent| == |t.marks| &&
    forall k :: 0 <= k < |t.sent| ==> t.sent[k] == UpdateMessage(progId, t.marks[..k + 1])
  }

  lemma StepConsistent(t: Trace, e: Event, progId: string, backend: string -> string)
    requires Consistent(t, progId)
    ensures Step(t, e, progId, backend).Continue? ==> Consistent(Step(t, e, progId, backend).next, progId)
    ensures Step(t, e, progId, backend).Crash? ==> Consistent(Step(t, e, progId, backend).last, progId)
  {
    match Step(t, e, progId, backend)
    case Crash(_, _) =>
    case Continue(n) =>
      if e.Cut? {
        StepCut(t, e, progId, backend);
        forall k | 0 <= k < |n.sent|
          ensures n.sent[k] == UpdateMessage(progId, n.marks[..k + 1])
        {
          if k < |t.marks| {
            assert n.marks[..k + 1] == t.marks[..k + 1];
          } else {
            assert n.marks[..k + 1] == n.marks;
          }
        }
      } else if e.Tagged? {
        StepLogOnly(t, e, progId, backend);
      }
  }

  /** The invariant holds after any stream, whether it ends cleanly or with an exception. */
  lemma {:induction false} RunConsistent(t: Trace, events: seq<Event>, progId: string, backend: string -> string)
    requires Consistent(t, progId)
    ensures RunSpec(t, events, progId, backend).Continue? ==> Consistent(RunSpec(t, events, progId, backend).next, progId)
    ensures RunSpec(t, events, progId, backend).Crash? ==> Consistent(RunSpec(t, events, progId, backend).last, progId)
    decreases |events|
  {
    if events != [] {
      StepConsistent(t, events[0], progId, backend);
      match Step(t, events[0], progId, backend)
      case Crash(_, _) =>
      case Continue(next) => RunConsistent(next, events[1..], progId, backend);
    }
  }

  /** A stream without cut lines ends with no break detected. */
  lemma NoCutsNoBreaks(events: seq<Event>, progId: string, backend: string -> string)
    requires WellFormed(events)
    requires forall k :: 0 <= k < |events| ==> !events[k].Cut?
    ensures RunSpec(Trace([], 0, [], []), events, progId, backend).Continue?
    ensures RunSpec(Trace([], 0, [], []), events, progId, backend).next.breaks == 0
    ensures RunSpec(Trace([], 0, [], []), events, progId, backend).next.marks == []
  {
    RunGrowth(Trace([], 0, [], []), events, progId, backend);
    NoCutEvents(events);
  }

  lemma {:induction false} NoCutEvents(events: seq<Event>)
    requires forall k :: 0 <= k < |events| ==> !events[k].Cut?
    ensures CutCount(events) == 0 && CutMarks(events) == []
  {
    if events != [] {
      assert !events[0].Cut?;
      NoCutEvents(events[1..]);
    }
  }

  /** The run from the i-th event on is that event's step followed by the run from the next one. */
  lemma RunFrom(t: Trace, events: seq<Event>, i: nat, progId: string, backend: string -> string)
    requires i < |events|
    ensures Step(t, events[i], progId, backend).Crash? ==>
      RunSpec(t, events[i..], progId, backend) == Step(t, events[i], progId, backend)
    ensures Step(t, events[i], progId, backend).Continue? ==>
      RunSpec(t, events[i..], progId, backend) == RunSpec(Step(t, events[i], progId, backend).next, events[i + 1..], progId, backend)
  {
    assert events[i..][0] == events[i];
    assert events[i..][1..] == events[i + 1..];
  }

  // ---------------------------------------------------------------- the loop

  /** One commflag session: the skip list (rec.markup), the break counter, the log and the messages sent. */
  class Session {
    const progId: string
    var marks: seq<Mark>
    var breaks: nat
    var log: seq<LogEntry>
    var sent: seq<string>

    function State(): Trace
      reads this
    {
      Trace(marks, breaks, log, sent)
    }

    /** The program id for the update messages, a purged skip list and no break counted yet. */
    constructor (chanid: string, starttime: string)
      ensures progId == ProgId(chanid, starttime)
      ensures State() == Trace([], 0, [], [])
      ensures Consistent(State(), progId)
    {
      progId := ProgId(chanid, starttime);
      marks, breaks, log, sent := [], 0, [], [];
    }

    /** The body of the loop for one non-empty line; fault is the exception it raises. */
    method HandleLine(line: string, backend: string -> string) returns (fault: Option<Fault>)
      modifies this
      ensures Step(old(State()), Parse(line), progId, backend) ==
        if fault == None then Continue(State()) else Crash(fault.value, State())
    {
      var sp := SplitFirst(line, '@');
      if sp == None {
        return Some(NoSeparator(line));
      }
      var (flag, info) := sp.value;
      if flag == "cut" {
        var numbers := DigitRuns(info);
        log := log + [LogEntry(Info, info)];
        if |numbers| < 2 {
          return Some(MissingOffsets(info));
        }
        marks := marks + [Mark(DecimalValue(numbers[0]), DecimalValue(numbers[1]))];
        breaks := breaks + 1;
        var mesg := UpdateMessage(progId, marks);
        var result := backend(BackendCommand(mesg));
        sent := sent + [mesg];
        if result != "OK" {
          log := log + [LogEntry(Err, FailureReport(result, mesg))];
        }
      } else {
        var level := SeverityOf(flag);
        if level.Some? {
          log := log + [LogEntry(level.value, info)];
        } else {
          log := log + [LogEntry(Warning, flag)];
        }
      }
      return None;
    }

    /** The read loop: stream holds what successive readline() calls return; past its end they return "". */
    method Run(stream: seq<string>, backend: string -> string) returns (outcome: Outcome)
      modifies this
      ensures RunSpec(old(State()), Parsed(Consumed(stream)), progId, backend) ==
        match outcome
        case Completed(_) => Continue(State())
        case Aborted(f) => Crash(f, State())
      ensures outcome.Completed? ==> outcome.breaks == breaks
    {
      ghost var lines := Consumed(stream);
      ghost var events := Parsed(lines);
      var i := 0;
      while true
        invariant 0 <= i <= |events|
        invariant RunSpec(old(State()), events, progId, backend) == RunSpec(State(), events[i..], progId, backend)
        decreases |stream| - i
      {
        var line := if i < |stream| then stream[i] else "";
        if line == "" {
          break;
        }
        assert i < |lines| && lines[i] == line;
        ghost var before := State();
        var fault := HandleLine(line, backend);
        RunFrom(before, events, i, progId, backend);
        if fault.Some? {
          return Aborted(fault.value);
        }
        i := i + 1;
      }
      assert i == |events|;
      outcome := Completed(breaks);
    }
  }

  /** A session that reads a stream to its end reports as many breaks as there were cut lines, in order. */
  lemma SessionSummary(chanid: string, starttime: string, stream: seq<string>, backend: string -> string)
    requires WellFormed(Parsed(Consumed(stream)))
    ensures var n := RunSpec(Trace([], 0, [], []), Parsed(Consumed(stream)), ProgId(chanid, starttime), backend);
      n.Continue? && n.next.marks == CutMarks(Parsed(Consumed(stream))) &&
      n.next.breaks == CutCount(Parsed(Consumed(stream))) &&
      |n.next.marks| == n.next.breaks && Consistent(n.next, ProgId(chanid, starttime))
  {
    var events := Parsed(Consumed(stream));
    var p := ProgId(chanid, starttime);
    RunGrowth(Trace([], 0, [], []), events, p, backend);
    CutMarksCount(events);
    RunConsistent(Trace([], 0, [], []), events, p, backend);
  }
}
