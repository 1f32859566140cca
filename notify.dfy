/**
 * The skip list and the COMMFLAG_UPDATE message that carries it to the
 * players: the program id built from channel id and start time, and the
 * comma-separated list of "offset:code" entries, one start and one end
 * entry per break.
 */
module Notify {
  import opened Wrappers
  import opened Text

  /** One detected break: the offsets of its start and its end, as the analyzer printed them. */
  datatype Mark = Mark(start: nat, end: nat)

  /** The markup types a break's start and end are recorded with (MARK_COMM_START, MARK_COMM_END). */
  const MarkCommStart: nat := 4
  const MarkCommEnd: nat := 5

  /** str(chanid) + '_' + str(starttime).replace(' ', 'T'): the start time in Qt::ISODate form. */
  function ProgId(chanid: string, starttime: string): (r: string)
    ensures |r| == |chanid| + 1 + |starttime|
    ensures r[..|chanid|] == chanid && r[|chanid|] == '_'
    ensures ' ' !in r[|chanid| + 1..]
    ensures forall k :: 0 <= k < |starttime| && starttime[k] != ' ' ==> r[|chanid| + 1 + k] == starttime[k]
    ensures forall k :: 0 <= k < |starttime| && starttime[k] == ' ' ==> r[|chanid| + 1 + k] == 'T'
  {
    var t := ReplaceChar(starttime, ' ', 'T');
    var r := chanid + "_" + t;
    assert r[|chanid| + 1..] == t;
    r
  }

  /** str(offset) + ':' + str(code) */
  function EntryText(offset: nat, code: nat): string {
    NatToString(offset) + ":" + NatToString(code)
  }

  /** The flattened tuple list: a start entry then an end entry for each mark, in order. */
  function Entries(marks: seq<Mark>): (r: seq<string>)
    ensures |r| == 2 * |marks|
    ensures forall k :: 0 <= k < |marks| ==>
      r[2 * k] == EntryText(marks[k].start, MarkCommStart) && r[2 * k + 1] == EntryText(marks[k].end, MarkCommEnd)
  {
    if marks == [] then []
    else
      var rest := Entries(marks[1..]);
      var r := [EntryText(marks[0].start, MarkCommStart), EntryText(marks[0].end, MarkCommEnd)] + rest;
      assert forall k :: 1 <= k < |marks| ==> marks[k] == marks[1..][k - 1];
      assert forall j :: 2 <= j < |r| ==> r[j] == rest[j - 2];
      r
  }

  /** 'COMMFLAG_UPDATE ' + progId + ' ' + ','.join(entries) */
  function UpdateMessage(progId: string, marks: seq<Mark>): string {
    "COMMFLAG_UPDATE " + progId + " " + Join(Entries(marks), ',')
  }

  /** The header of every command the backend accepts. */
  const CommandHeader: string := "MESSAGE[]:[]"

  /** The command sent to the backend for a message. */
  function BackendCommand(mesg: string): string {
    CommandHeader + mesg
  }

  /** The backend finds the header, then the message intact. */
  lemma CommandCarriesMessage(mesg: string)
    ensures var r := BackendCommand(mesg);
      |r| == |CommandHeader| + |mesg| && r[..|CommandHeader|] == CommandHeader && r[|CommandHeader|..] == mesg
  {
  }

  /** The reading a player gives one entry: the offset, when the entry carries the expected code. */
  function DecodeEntry(entry: string, code: nat): Option<nat> {
    var parts := Split(entry, ':');
    if |parts| == 2 && IsDigitRun(parts[0]) && parts[1] == NatToString(code) then Some(DecimalValue(parts[0]))
    else None
  }

  function DecodeEntries(entries: seq<string>): Option<seq<Mark>>
    decreases |entries|
  {
    if entries == [] then Some([])
    else if |entries| == 1 then None
    else
      match (DecodeEntry(entries[0], MarkCommStart), DecodeEntry(entries[1], MarkCommEnd), DecodeEntries(entries[2..]))
      case (Some(s), Some(e), Some(rest)) => Some([Mark(s, e)] + rest)
      case _ => None
  }

  /** The reading of the list part of an update message back into marks. */
  function DecodeSkipList(body: string): Option<seq<Mark>> {
    if body == "" then Some([]) else DecodeEntries(Split(body, ','))
  }

  lemma {:induction false} EntryRoundTrip(offset: nat, code: nat)
    ensures ',' !in EntryText(offset, code)
    ensures DecodeEntry(EntryText(offset, code), code) == Some(offset)
  {
    var a, b := NatToString(offset), NatToString(code);
    assert forall k :: 0 <= k < |a| ==> IsDigit(a[k]);
    assert forall k :: 0 <= k < |b| ==> IsDigit(b[k]);
    assert EntryText(offset, code) == Join([a, b], ':');
    SplitJoin([a, b], ':');
    DecimalRoundTrip(offset);
  }

  lemma EntriesRoundTrip(marks: seq<Mark>)
    ensures forall k :: 0 <= k < |Entries(marks)| ==> ',' !in Entries(marks)[k]
    ensures DecodeEntries(Entries(marks)) == Some(marks)
  {
    EntriesCommaFree(marks);
    EntriesDecode(marks);
  }

  lemma EntriesCommaFree(marks: seq<Mark>)
    ensures forall k :: 0 <= k < |Entries(marks)| ==> ',' !in Entries(marks)[k]
  {
    var es := Entries(marks);
    forall k | 0 <= k < |es|
      ensures ',' !in es[k]
    {
      var m := marks[k / 2];
      if k % 2 == 0 {
        EntryRoundTrip(m.start, MarkCommStart);
      } else {
        EntryRoundTrip(m.end, MarkCommEnd);
      }
    }
  }

  lemma {:induction false} EntriesDecode(marks: seq<Mark>)
    ensures DecodeEntries(Entries(marks)) == Some(marks)
  {
    if marks != [] {
      var es := Entries(marks);
      EntryRoundTrip(marks[0].start, MarkCommStart);
      EntryRoundTrip(marks[0].end, MarkCommEnd);
      EntriesDecode(marks[1..]);
      assert es[2..] == Entries(marks[1..]);
      assert [marks[0]] + marks[1..] == marks;
    }
  }

  /**
   * The message carries the whole skip list: a player that splits the
   * list part on ',' finds two entries per break and reads back every
   * mark, in order.
   */
  lemma SkipListRoundTrip(marks: seq<Mark>)
    ensures |Split(Join(Entries(marks), ','), ',')| == if marks == [] then 1 else 2 * |marks|
    ensures DecodeSkipList(Join(Entries(marks), ',')) == Some(marks)
  {
    EntriesRoundTrip(marks);
    if marks != [] {
      SplitJoin(Entries(marks), ',');
      assert Join(Entries(marks), ',') != "" by {
        assert NatToString(marks[0].start) != "";
      }
    }
  }

  /** Three sample breaks, in the order the analyzer reports them. */
  const ThreeMarks: seq<Mark> := [Mark(100, 250), Mark(400, 500), Mark(900, 950)]

  /** Three breaks give six entries, in the order they were found, with the start and end codes. */
  lemma ThreeBreaks()
    ensures Entries(ThreeMarks) == ["100:4", "250:5", "400:4", "500:5", "900:4", "950:5"]
  {
    var marks := ThreeMarks;
    assert NatToString(4) == "4";
    assert NatToString(5) == "5";
    assert NatToString(100) == "100" by { assert NatToString(10) == "10"; }
    assert NatToString(250) == "250" by { assert NatToString(25) == "25"; }
    assert NatToString(400) == "400" by { assert NatToString(40) == "40"; }
    assert NatToString(500) == "500" by { assert NatToString(50) == "50"; }
    assert NatToString(900) == "900" by { assert NatToString(90) == "90"; }
    assert NatToString(950) == "950" by { assert NatToString(95) == "95"; }
    assert EntryText(100, MarkCommStart) == "100:4" && EntryText(250, MarkCommEnd) == "250:5";
    assert EntryText(400, MarkCommStart) == "400:4" && EntryText(500, MarkCommEnd) == "500:5";
    assert EntryText(900, MarkCommStart) == "900:4" && EntryText(950, MarkCommEnd) == "950:5";
    var es := Entries(marks);
    assert |es| == 6;
    assert es[0] == EntryText(marks[0].start, MarkCommStart) && es[1] == EntryText(marks[0].end, MarkCommEnd);
    assert es[2] == EntryText(marks[1].start, MarkCommStart) && es[3] == EntryText(marks[1].end, MarkCommEnd);
    assert es[4] == EntryText(marks[2].start, MarkCommStart) && es[5] == EntryText(marks[2].end, MarkCommEnd);
  }

  /**
   * The message is the command word and the program id, then a list part
   * from which a player reads back the whole skip list, in order.
   */
  lemma MessageCarriesSkipList(progId: string, marks: seq<Mark>)
    ensures var head, r := "COMMFLAG_UPDATE " + progId + " ", UpdateMessage(progId, marks);
      |head| <= |r| && r[..|head|] == head && DecodeSkipList(r[|head|..]) == Some(marks)
  {
    var head, body := "COMMFLAG_UPDATE " + progId + " ", Join(Entries(marks), ',');
    SkipListRoundTrip(marks);
    var r := UpdateMessage(progId, marks);
    assert r == head + body;
    assert r[..|head|] == head && r[|head|..] == body;
  }
}
