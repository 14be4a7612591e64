/** Two goroutines copy the lines of a process's stdout and stderr into one log file. */
module LogPipes {

  datatype Source = Stdout | Stderr

  function Tag(source: Source): string {
    match source
    case Stdout => "stdout"
    case Stderr => "stderr"
  }

  function Other(source: Source): Source {
    match source
    case Stdout => Stderr
    case Stderr => Stdout
  }

  // ---------------------------------------------------------------- streams of bytes

  /** Where the first separator is. */
  function IndexOf(s: string, c: char): (i: nat)
    requires c in s
    ensures i < |s| && s[i] == c && c !in s[..i]
  {
    if s[0] == c then 0
    else
      var i := IndexOf(s[1..], c) + 1;
      assert s[..i] == [s[0]] + s[1..][..i - 1];
      i
  }

  /** What ReadString('\n') returns when there is a newline. */
  function FirstLine(s: string): string
    requires '\n' in s
  {
    s[..IndexOf(s, '\n') + 1]
  }

  function Lines(s: string): seq<string>
    decreases |s|
  {
    if '\n' !in s then [] else [FirstLine(s)] + Lines(s[|FirstLine(s)|..])
  }

  function Concat(parts: seq<string>): string {
    if parts == [] then "" else Concat(parts[..|parts| - 1]) + parts[|parts| - 1]
  }

  lemma {:induction false} ConcatFront(part: string, parts: seq<string>)
    ensures Concat([part] + parts) == part + Concat(parts)
  {
    if parts == [] {
      assert [part][..0] == [];
    } else {
      ConcatFront(part, parts[..|parts| - 1]);
      assert ([part] + parts)[..|parts|] == [part] + parts[..|parts| - 1];
    }
  }

  predicate EndsLine(s: string) {
    s == "" || s[|s| - 1] == '\n'
  }

  /** A prefix that ends with a newline, or is empty, and leaves no newline behind: the longest such. */
  ghost predicate CompleteLines(prefix: string, s: string) {
    prefix <= s && EndsLine(prefix) && '\n' !in s[|prefix|..]
  }

  lemma LongerComplete(first: string, rest: string, whole: string)
    requires EndsLine(first) && CompleteLines(whole, rest)
    ensures CompleteLines(first + whole, first + rest)
  {
    assert (first + rest)[|first + whole|..] == rest[|whole|..];
  }

  lemma {:induction false} LinesComplete(s: string)
    ensures CompleteLines(Concat(Lines(s)), s)
    decreases |s|
  {
    if '\n' in s {
      var first := FirstLine(s);
      var rest := s[|first|..];
      ConcatFront(first, Lines(rest));
      LinesComplete(rest);
      LongerComplete(first, rest, Concat(Lines(rest)));
      assert s == first + rest;
    }
  }

  /** There is exactly one such prefix, and it is the concatenation of the lines. */
  lemma LinesAreComplete(s: string, prefix: string)
    ensures prefix == Concat(Lines(s)) <==> CompleteLines(prefix, s)
  {
    LinesComplete(s);
    if CompleteLines(prefix, s) {
      OneComplete(prefix, Concat(Lines(s)), s);
    }
  }

  lemma NoLonger(a: string, b: string, s: string)
    requires CompleteLines(a, s) && CompleteLines(b, s)
    ensures |b| <= |a|
  {
    assert b != "" ==> s[|b| - 1] == '\n';
    assert forall i | 0 <= i < |s[|a|..]| :: s[|a|..][i] == s[|a| + i];
    assert forall i | |a| <= i < |s| :: s[i] == s[|a|..][i - |a|];
  }

  lemma OneComplete(a: string, b: string, s: string)
    requires CompleteLines(a, s) && CompleteLines(b, s)
    ensures a == b
  {
    NoLonger(a, b, s);
    NoLonger(b, a, s);
    assert a == s[..|a|] && b == s[..|b|];
  }

  // ---------------------------------------------------------------- the log

  /** One line of the log: what was written, for whom, when. */
  datatype Entry = Entry(timestamp: string, source: Source, line: string)

  /** RFC 3339 section 5.6 timestamps contain neither a space nor a newline. */
  predicate TimestampOk(ts: string) {
    ' ' !in ts && '\n' !in ts
  }

  /** A line with its newline, and no other. */
  predicate IsLine(s: string) {
    s != "" && s[|s| - 1] == '\n' && '\n' !in s[..|s| - 1]
  }

  predicate EntryOk(e: Entry) {
    TimestampOk(e.timestamp) && IsLine(e.line)
  }

  /** One Fprintf: timestamp, stream, flag, line. */
  function Format(e: Entry): string {
    e.timestamp + " " + Tag(e.source) + " F " + e.line
  }

  /** The text before and after the first separator. */
  function Cut(s: string, c: char): (string, string)
    requires c in s
  {
    (s[..IndexOf(s, c)], s[IndexOf(s, c) + 1..])
  }

  lemma CutFirst(before: string, after: string, c: char)
    requires c !in before
    ensures c in before + [c] + after && Cut(before + [c] + after, c) == (before, after)
  {
    var s := before + [c] + after;
    assert s[|before|] == c;
    var i := IndexOf(s, c);
    assert forall k | 0 <= k < i :: s[..i][k] == s[k];
    assert forall k | 0 <= k < |before| :: s[k] == before[k];
    assert s[..|before|] == before && s[|before| + 1..] == after;
  }

  /** What a reader finds in one line of the log. */
  datatype Record = Record(time: string, tag: string, flag: string, text: string)

  /** A reader of the log: three words, each ended by a space, and the text. */
  function ParseRecord(record: string): Record {
    if ' ' !in record then Record("", "", "", "")
    else
      var (time, afterTime) := Cut(record, ' ');
      if ' ' !in afterTime then Record("", "", "", "")
      else
        var (tag, afterTag) := Cut(afterTime, ' ');
        if ' ' !in afterTag then Record("", "", "", "")
        else
          var (flag, text) := Cut(afterTag, ' ');
          Record(time, tag, flag, text)
  }

  /** The text of one stream in a log: records are lines, and those with the tag are selected. */
  function Demux(log: string, tag: string): string
    decreases |log|
  {
    if '\n' !in log then ""
    else
      var record := FirstLine(log);
      var parsed := ParseRecord(record);
      (if parsed.tag == tag then parsed.text else "") + Demux(log[|record|..], tag)
  }

  lemma ParseParts(time: string, tag: string, flag: string, line: string)
    requires ' ' !in time && ' ' !in tag && ' ' !in flag
    ensures ParseRecord(time + [' '] + (tag + [' '] + (flag + [' '] + line))) == Record(time, tag, flag, line)
  {
    CutFirst(time, tag + [' '] + (flag + [' '] + line), ' ');
    CutFirst(tag, flag + [' '] + line, ' ');
    CutFirst(flag, line, ' ');
  }

  lemma PrependedLine(head: string, line: string)
    requires '\n' !in head && IsLine(line)
    ensures IsLine(head + line)
  {
    assert (head + line)[..|head + line| - 1] == head + line[..|line| - 1];
  }

  /** A record parses back to its time, the name of its stream, the flag of a full line, and the line. */
  lemma ParseFormat(e: Entry)
    requires EntryOk(e)
    ensures ParseRecord(Format(e)) == Record(e.timestamp, if e.source.Stdout? then "stdout" else "stderr", "F", e.line)
    ensures IsLine(Format(e))
  {
    ParseFormatted(e.timestamp, Tag(e.source), e.line);
    FormattedLine(e.timestamp, Tag(e.source), e.line);
  }

  lemma ParseFormatted(time: string, tag: string, line: string)
    requires TimestampOk(time) && IsLine(line) && TimestampOk(tag)
    ensures ParseRecord(time + " " + tag + " F " + line) == Record(time, tag, "F", line)
  {
    ParseParts(time, tag, "F", line);
    FormatParts(time, tag, line);
  }

  lemma FormattedLine(time: string, tag: string, line: string)
    requires TimestampOk(time) && IsLine(line) && TimestampOk(tag)
    ensures IsLine(time + " " + tag + " F " + line)
  {
    PrependedLine(time + " " + tag + " F ", line);
  }

  lemma FormatParts(time: string, tag: string, line: string)
    ensures time + " " + tag + " F " + line == time + [' '] + (tag + [' '] + ("F" + [' '] + line))
  {
  }

  lemma FirstRecord(record: string, rest: string)
    requires IsLine(record)
    ensures '\n' in record + rest && FirstLine(record + rest) == record
  {
    CutFirst(record[..|record| - 1], rest, '\n');
    assert record[..|record| - 1] + ['\n'] + rest == record + rest;
  }

  /** The text one goroutine wrote. */
  function Text(entries: seq<Entry>, source: Source): string {
    if entries == [] then ""
    else Text(entries[..|entries| - 1], source) + LineFor(entries[|entries| - 1], source)
  }

  function LineFor(e: Entry, source: Source): string {
    if e.source == source then e.line else ""
  }

  /** What a reader picks from a sequence of parsed records. */
  function Picked(parsed: seq<Record>, tag: string): string {
    if parsed == [] then ""
    else
      var last := parsed[|parsed| - 1];
      Picked(parsed[..|parsed| - 1], tag) + if last.tag == tag then last.text else ""
  }

  lemma {:induction false} PickedFront(first: Record, parsed: seq<Record>, tag: string)
    ensures Picked([first] + parsed, tag) == (if first.tag == tag then first.text else "") + Picked(parsed, tag)
  {
    if parsed == [] {
      assert [first][..0] == [];
    } else {
      PickedFront(first, parsed[..|parsed| - 1], tag);
      assert ([first] + parsed)[..|parsed|] == [first] + parsed[..|parsed| - 1];
    }
  }

  lemma PickedNext(parsed: seq<Record>, last: Record, tag: string)
    ensures Picked(parsed + [last], tag) == Picked(parsed, tag) + if last.tag == tag then last.text else ""
  {
    assert (parsed + [last])[..|parsed|] == parsed;
  }

  function Parsed(records: seq<string>): seq<Record> {
    if records == [] then [] else [ParseRecord(records[0])] + Parsed(records[1..])
  }

  lemma {:induction false} ParsedNext(records: seq<string>, record: string)
    ensures Parsed(records + [record]) == Parsed(records) + [ParseRecord(record)]
  {
    if records != [] {
      ParsedNext(records[1..], record);
      assert (records + [record])[1..] == records[1..] + [record];
    } else {
      assert [record][1..] == [];
    }
  }

  /** A log is cut into its records at the newlines. */
  lemma {:induction false} DemuxRecords(records: seq<string>, tag: string)
    requires forall record | record in records :: IsLine(record)
    ensures Demux(Concat(records), tag) == Picked(Parsed(records), tag)
    decreases |records|
  {
    if records != [] {
      var record, rest := records[0], records[1..];
      assert records == [record] + rest;
      ConcatFront(record, rest);
      PickedFront(ParseRecord(record), Parsed(rest), tag);
      FirstRecord(record, Concat(rest));
      assert (record + Concat(rest))[|record|..] == Concat(rest);
      DemuxRecords(rest, tag);
    }
  }

  function Formats(entries: seq<Entry>): seq<string> {
    if entries == [] then [] else Formats(entries[..|entries| - 1]) + [Format(entries[|entries| - 1])]
  }

  function Render(entries: seq<Entry>): string {
    Concat(Formats(entries))
  }

  /** The log consists of the records of these entries. */
  ghost predicate Holds(log: string, entries: seq<Entry>) {
    forall es {:trigger Render(es)} | es == entries :: log == Render(es)
  }

  ghost predicate EntriesOk(entries: seq<Entry>) {
    forall e {:trigger EntryOk(e)} | e in entries :: EntryOk(e)
  }

  lemma {:induction false} FormatsAreRecords(entries: seq<Entry>, source: Source)
    requires EntriesOk(entries)
    ensures forall record | record in Formats(entries) :: IsLine(record)
    ensures Picked(Parsed(Formats(entries)), Tag(source)) == Text(entries, source)
  {
    if entries != [] {
      var init, last := entries[..|entries| - 1], entries[|entries| - 1];
      FormatsAreRecords(init, source);
      assert last in entries && EntryOk(last);
      ParseFormat(last);
      ParsedNext(Formats(init), Format(last));
      PickedNext(Parsed(Formats(init)), ParseRecord(Format(last)), Tag(source));
    }
  }

  /**
   Whatever bytes the lines contain and however the writes of the two goroutines interleave, selecting
   one stream's tag from the log gives back exactly what that goroutine wrote, in order.
   */
  lemma DemuxRecovers(log: string, entries: seq<Entry>)
    requires Holds(log, entries) && EntriesOk(entries)
    ensures Demux(log, "stdout") == Text(entries, Stdout) && Demux(log, "stderr") == Text(entries, Stderr)
  {
    assert log == Render(entries);
    FormatsAreRecords(entries, Stdout);
    FormatsAreRecords(entries, Stderr);
    DemuxRecords(Formats(entries), "stdout");
    DemuxRecords(Formats(entries), "stderr");
  }

  // ---------------------------------------------------------------- the pipe

  /** What one more record does to the log and to what each goroutine has written. */
  lemma AppendEntry(entries: seq<Entry>, e: Entry)
    ensures Text(entries + [e], e.source) == Text(entries, e.source) + e.line
    ensures Text(entries + [e], Other(e.source)) == Text(entries, Other(e.source))
  {
    assert (entries + [e])[..|entries|] == entries;
  }

  lemma RenderNext(entries: seq<Entry>, e: Entry)
    ensures Render(entries + [e]) == Render(entries) + Format(e)
  {
    assert (entries + [e])[..|entries|] == entries;
    var records := Formats(entries);
    assert (records + [Format(e)])[..|records|] == records;
  }

  lemma {:induction false} TextEndsLine(entries: seq<Entry>, source: Source)
    requires EntriesOk(entries)
    ensures EndsLine(Text(entries, source))
  {
    if entries != [] {
      var init, last := entries[..|entries| - 1], entries[|entries| - 1];
      TextEndsLine(init, source);
      assert last in entries && EntryOk(last);
    }
  }

  /** What a goroutine wrote ends with a newline, so at the end of the stream only a partial line is missing. */
  lemma TextAtEnd(entries: seq<Entry>, source: Source, rest: string)
    requires EntriesOk(entries) && '\n' !in rest
    ensures CompleteLines(Text(entries, source), Text(entries, source) + rest)
  {
    TextEndsLine(entries, source);
    assert (Text(entries, source) + rest)[|Text(entries, source)|..] == rest;
  }

  /** Written and unread text make up the stream; after the goroutine's end all complete lines are written. */
  ghost predicate SourceState(entries: seq<Entry>, source: Source, done: bool, unread: string, stream: string) {
    forall es {:trigger Text(es, source)} | es == entries ::
      if done then CompleteLines(Text(es, source), stream) else Text(es, source) + unread == stream
  }

  lemma OwnLineKeeps(entries: seq<Entry>, e: Entry, rest: string, stream: string)
    requires SourceState(entries, e.source, false, e.line + rest, stream)
    ensures SourceState(entries + [e], e.source, false, rest, stream)
  {
    AppendEntry(entries, e);
    var text := Text(entries, e.source);
    assert text + (e.line + rest) == text + e.line + rest;
  }

  lemma OtherLineKeeps(entries: seq<Entry>, e: Entry, done: bool, unread: string, stream: string)
    requires SourceState(entries, Other(e.source), done, unread, stream)
    ensures SourceState(entries + [e], Other(e.source), done, unread, stream)
  {
    AppendEntry(entries, e);
    assert Text(entries + [e], Other(e.source)) == Text(entries, Other(e.source));
  }

  lemma EndKeeps(entries: seq<Entry>, source: Source, unread: string, stream: string)
    requires EntriesOk(entries) && '\n' !in unread && SourceState(entries, source, false, unread, stream)
    ensures SourceState(entries, source, true, "", stream)
  {
    TextAtEnd(entries, source, unread);
  }

  class LogPipe {
    var stdout: string       // not yet read
    var stderr: string
    var stdoutDone: bool     // the goroutine has left its loop
    var stderrDone: bool
    var log: string
    ghost var entries: seq<Entry>
    ghost const out: string  // what the process writes
    ghost const err: string

    function Unread(source: Source): string
      reads this`stdout, this`stderr
    {
      if source == Stdout then stdout else stderr
    }

    predicate Done(source: Source)
      reads this`stdoutDone, this`stderrDone
    {
      if source == Stdout then stdoutDone else stderrDone
    }

    ghost function Stream(source: Source): string {
      if source == Stdout then out else err
    }

    ghost predicate SourceOk(source: Source)
      reads this
    {
      SourceState(entries, source, Done(source), Unread(source), Stream(source))
    }

    ghost predicate Valid()
      reads this
    {
      && Holds(log, entries) && EntriesOk(entries)
      && SourceOk(Stdout) && SourceOk(Stderr)
    }

    constructor (stdout: string, stderr: string)
      ensures Valid() && log == "" && out == stdout && err == stderr && !Done(Stdout) && !Done(Stderr)
    {
      this.stdout, this.stderr, out, err := stdout, stderr, stdout, stderr;
      stdoutDone, stderrDone, log, entries := false, false, "", [];
    }

    /** ReadString('\n'): a line with its newline, or the rest of the stream and EOF. */
    method ReadString(source: Source) returns (line: string, eof: bool)
      modifies this`stdout, this`stderr
      ensures eof <==> '\n' !in old(Unread(source))
      ensures line + Unread(source) == old(Unread(source))
      ensures if eof then Unread(source) == "" else IsLine(line)
      ensures Unread(Other(source)) == old(Unread(Other(source)))
    {
      var s := Unread(source);
      eof := '\n' !in s;
      line := if eof then s else FirstLine(s);
      assert !eof ==> line[..|line| - 1] == s[..|line| - 1];
      if source == Stdout {
        stdout := s[|line|..];
      } else {
        stderr := s[|line|..];
      }
    }

    /** One pass of the loop of pipeOutputToLogFile: read a line, write a record; at EOF leave the loop. */
    method Pass(source: Source, timestamp: string) returns (line: string)
      requires Valid() && !Done(source) && TimestampOk(timestamp)
      modifies this`stdout, this`stderr, this`stdoutDone, this`stderrDone, this`log, this`entries
      ensures Valid()
      ensures Done(source) <==> '\n' !in old(Unread(source))
      ensures line + Unread(source) == old(Unread(source))
      ensures entries == old(entries) + if Done(source) then [] else [Entry(timestamp, source, line)]
      ensures |Unread(source)| <= |old(Unread(source))| && (!Done(source) ==> |Unread(source)| < |old(Unread(source))|)
      ensures Done(Other(source)) == old(Done(Other(source))) && Unread(Other(source)) == old(Unread(Other(source)))
    {
      ghost var unread := Unread(source);
      assert SourceOk(source) && SourceOk(Other(source));
      var eof;
      line, eof := ReadString(source);
      if eof {
        Finish(source, unread);
      } else {
        Append(source, timestamp, line);
      }
    }

    /** At the end of its stream the goroutine leaves its loop, and drops an unterminated line. */
    method Finish(source: Source, ghost unread: string)
      requires Holds(log, entries) && EntriesOk(entries) && '\n' !in unread
      requires SourceState(entries, source, false, unread, Stream(source)) && SourceOk(Other(source))
      modifies this`stdoutDone, this`stderrDone
      ensures Valid() && Done(source) && Done(Other(source)) == old(Done(Other(source)))
    {
      EndKeeps(entries, source, unread, Stream(source));
      if source == Stdout {
        stdoutDone := true;
      } else {
        stderrDone := true;
      }
    }

    /** The line just read goes into the log. */
    method Append(source: Source, timestamp: string, line: string)
      requires Holds(log, entries) && EntriesOk(entries) && TimestampOk(timestamp) && IsLine(line) && !Done(source)
      requires SourceState(entries, source, false, line + Unread(source), Stream(source)) && SourceOk(Other(source))
      modifies this`log, this`entries
      ensures Valid() && entries == old(entries) + [Entry(timestamp, source, line)]
    {
      var other := Other(source);
      OwnLineKeeps(entries, Entry(timestamp, source, line), Unread(source), Stream(source));
      OtherLineKeeps(entries, Entry(timestamp, source, line), Done(other), Unread(other), Stream(other));
      WriteRecord(source, timestamp, line);
      assert SourceOk(source) && SourceOk(other);
    }

    /** The one Fprintf of a pass: a single write, so the records of the two goroutines do not mix. */
    method WriteRecord(source: Source, timestamp: string, line: string)
      requires Holds(log, entries)
      modifies this`log, this`entries
      ensures Holds(log, entries) && entries == old(entries) + [Entry(timestamp, source, line)]
    {
      RenderNext(entries, Entry(timestamp, source, line));
      log := log + (timestamp + " " + Tag(source) + " F " + line);
      entries := entries + [Entry(timestamp, source, line)];
    }

    /** pipeOutputToLogFile, run alone from here on. */
    method PipeOutputToLogFile(source: Source, clock: nat -> string)
      requires Valid() && forall i :: TimestampOk(clock(i))
      modifies this`stdout, this`stderr, this`stdoutDone, this`stderrDone, this`log, this`entries
      ensures Valid() && Done(source)
      ensures Done(Other(source)) == old(Done(Other(source))) && Unread(Other(source)) == old(Unread(Other(source)))
    {
      var i := 0;
      while !Done(source)
        invariant Valid()
        invariant Done(Other(source)) == old(Done(Other(source))) && Unread(Other(source)) == old(Unread(Other(source)))
        decreases !Done(source), |Unread(source)|
      {
        var _ := Pass(source, clock(i));
        i := i + 1;
      }
    }

    /**
     Start and Wait: the two goroutines take passes in the order of any schedule, and then each to its
     end.  Afterwards each stream's tag selects from the log exactly the longest newline-terminated
     prefix of what the process wrote to it.
     */
    method Run(schedule: seq<Source>, clock: nat -> string)
      requires Valid() && forall i :: TimestampOk(clock(i))
      modifies this`stdout, this`stderr, this`stdoutDone, this`stderrDone, this`log, this`entries
      ensures Valid() && Done(Stdout) && Done(Stderr)
      ensures CompleteLines(Demux(log, "stdout"), out)
      ensures CompleteLines(Demux(log, "stderr"), err)
    {
      for i := 0 to |schedule|
        invariant Valid()
      {
        if !Done(schedule[i]) {
          var _ := Pass(schedule[i], clock(i));
        }
      }
      PipeOutputToLogFile(Stdout, clock);
      PipeOutputToLogFile(Stderr, clock);
      DemuxRecovers(log, entries);
    }
  }

  // ---------------------------------------------------------------- any interleaving

  /** The lines one goroutine wrote, in order. */
  function Written(entries: seq<Entry>, source: Source): seq<string> {
    if entries == [] then []
    else
      var init, last := Written(entries[..|entries| - 1], source), entries[|entries| - 1];
      if last.source == source then init + [last.line] else init
  }

  lemma {:induction false} WrittenText(entries: seq<Entry>, source: Source)
    ensures Concat(Written(entries, source)) == Text(entries, source)
  {
    if entries != [] {
      var init := entries[..|entries| - 1];
      WrittenText(init, source);
      var written := Written(init, source);
      assert (written + [entries[|init|].line])[..|written|] == written;
    }
  }

  /**
   The same for every interleaving of the two sequences of writes: if what the two goroutines wrote is
   the lines of their streams, demultiplexing the log is the inverse of multiplexing into it.
   */
  lemma DemuxInvertsMultiplexing(log: string, entries: seq<Entry>, out: string, err: string)
    requires Holds(log, entries) && EntriesOk(entries)
    requires Written(entries, Stdout) == Lines(out) && Written(entries, Stderr) == Lines(err)
    ensures CompleteLines(Demux(log, "stdout"), out)
    ensures CompleteLines(Demux(log, "stderr"), err)
  {
    DemuxRecovers(log, entries);
    WrittenText(entries, Stdout);
    WrittenText(entries, Stderr);
    LinesAreComplete(out, Concat(Lines(out)));
    LinesAreComplete(err, Concat(Lines(err)));
  }
}
