/**
 The appointment file handed to a customer: its lines, the loop that writes them, and what a
 calendar reads back.
 */
module CalendarFile {
  import opened Utf8
  import opened IcsText

  /** Visible ASCII. */
  predicate Plain(s: string) { forall i :: 0 <= i < |s| ==> ' ' <= s[i] <= '~' }

  /** `uid` is a digest in hexadecimal, the instants are UTC stamps, the texts are UTF-8. */
  datatype Event = Event(uid: string, now: string, start: string, end: string,
                         title: Bytes, address: Bytes, description: Bytes)

  predicate EventOk(e: Event) {
    && Plain(e.uid) && Plain(e.now) && Plain(e.start) && Plain(e.end)
    && Valid(e.title) && Valid(e.address) && Valid(e.description)
  }

  function Octets(s: string): (r: Bytes)
    requires Plain(s)
    ensures |r| == |s| && Ascii(r) && OneLine(r)
    ensures s != "" ==> r[0] == s[0] as int
  {
    seq(|s|, i requires 0 <= i < |s| => s[i] as int)
  }

  ghost predicate LineOk(line: Bytes) {
    Valid(line) && OneLine(line) && line != [] && line[0] != SPACE && line[0] != TAB
  }

  /** A line of the file: a fixed one, a property with an ASCII value, or a property with a text. */
  datatype Row = Fixed(whole: string) | Stamped(name: string, value: string) | Text(name: string, text: Bytes)

  predicate Name(s: string) { Plain(s) && s != "" && s[0] != ' ' }

  predicate RowOk(row: Row) {
    match row
    case Fixed(whole) => Name(whole)
    case Stamped(name, value) => Name(name) && Plain(value)
    case Text(name, text) => Name(name) && Valid(text)
  }

  predicate RowsOk(rows: seq<Row>) { forall i :: 0 <= i < |rows| ==> RowOk(rows[i]) }

  function Label(row: Row): string { if row.Fixed? then row.whole else row.name }

  function ValueOf(row: Row): Bytes
    requires RowOk(row)
  {
    match row
    case Fixed(_) => []
    case Stamped(_, value) => Octets(value)
    case Text(_, text) => Escape(text)
  }

  lemma ValueIsWritable(row: Row)
    requires RowOk(row)
    ensures Valid(ValueOf(row)) && OneLine(ValueOf(row))
  {
    if row.Stamped? {
      AsciiIsValid(Octets(row.value));
    } else if row.Text? {
      EscapeIsOneLine(row.text);
      EscapeIsValid(row.text);
    }
  }

  function Line(row: Row): (line: Bytes)
    requires RowOk(row)
    ensures LineOk(line)
  {
    ValueIsWritable(row);
    AsciiIsValid(Octets(Label(row)));
    ValidConcat(Octets(Label(row)), ValueOf(row));
    Octets(Label(row)) + ValueOf(row)
  }

  function Lines(rows: seq<Row>): (lines: seq<Bytes>)
    requires RowsOk(rows)
    ensures |lines| == |rows| && forall i :: 0 <= i < |rows| ==> lines[i] == Line(rows[i])
  {
    seq(|rows|, i requires 0 <= i < |rows| => Line(rows[i]))
  }

  // ---------------------------------------------------------------- the appointment

  function Whole(line: string): (row: Row)
    requires Name(line)
    ensures RowOk(row)
  {
    Fixed(line)
  }

  function Property(name: string, value: string): (row: Row)
    requires Name(name) && Plain(value)
    ensures RowOk(row)
  {
    Stamped(name, value)
  }

  function Note(name: string, text: Bytes): (row: Row)
    requires Name(name) && Valid(text)
    ensures RowOk(row)
  {
    Text(name, text)
  }

  function Producer(): (rows: seq<Row>)
    ensures RowsOk(rows)
  {
    [Whole("PRODID:-//Motion Concept//Appointments//EN")]
  }

  function Opening(): (rows: seq<Row>)
    ensures RowsOk(rows)
  {
    [Whole("BEGIN:VCALENDAR"), Whole("VERSION:2.0")] + Producer()
  }

  function Start(): (rows: seq<Row>)
    ensures RowsOk(rows)
  {
    [Whole("CALSCALE:GREGORIAN"), Whole("BEGIN:VEVENT")]
  }

  function Instants(e: Event): (rows: seq<Row>)
    requires EventOk(e)
    ensures RowsOk(rows)
  {
    [Property("UID:", e.uid + "@motionconcept.rest"),
     Property("DTSTAMP:", e.now), Property("DTSTART:", e.start), Property("DTEND:", e.end)]
  }

  function Texts(e: Event): (rows: seq<Row>)
    requires EventOk(e)
    ensures RowsOk(rows)
  {
    [Note("SUMMARY:", e.title), Note("LOCATION:", e.address), Note("DESCRIPTION:", e.description)]
  }

  function Status(): (rows: seq<Row>)
    ensures RowsOk(rows)
  {
    [Whole("STATUS:CONFIRMED"), Whole("TRANSP:OPAQUE")]
  }

  function Alarm(e: Event): (rows: seq<Row>)
    requires EventOk(e)
    ensures RowsOk(rows)
  {
    [Whole("BEGIN:VALARM"), Whole("TRIGGER:-PT24H"), Whole("ACTION:DISPLAY"), Note("DESCRIPTION:", e.title)]
  }

  function Closing(): (rows: seq<Row>)
    ensures RowsOk(rows)
  {
    [Whole("END:VALARM"), Whole("END:VEVENT"), Whole("END:VCALENDAR")]
  }

  function Rows(e: Event): (rows: seq<Row>)
    requires EventOk(e)
    ensures RowsOk(rows)
  {
    Opening() + Start() + Instants(e) + Texts(e) + Status() + Alarm(e) + Closing()
  }

  /** The loop over lines and, inside it, over the octets that are too many. */
  method Ics(e: Event) returns (out: Bytes)
    requires EventOk(e)
    ensures out == File(Rows(e))
  {
    LinesAreWritable(Rows(e));
    out := WriteLines(Lines(Rows(e)));
  }

  method WriteLines(lines: seq<Bytes>) returns (out: Bytes)
    requires AllValid(lines)
    ensures out == Written(FoldAll(lines))
  {
    out := [];
    assert lines[0..] == lines;
    for i := 0 to |lines|
      invariant out + Written(FoldAll(lines[i..])) == Written(FoldAll(lines))
    {
      var written := WriteLine(lines[i]);
      LineWritten(out, lines, i);
      out := out + written;
    }
    assert lines[|lines|..] == [];
  }

  lemma LineWritten(out: Bytes, lines: seq<Bytes>, i: nat)
    requires AllValid(lines) && i < |lines|
    ensures out + Written(FoldAll(lines[i..])) == out + Written(Fold(lines[i])) + Written(FoldAll(lines[i + 1..]))
  {
    assert lines[i..][0] == lines[i] && lines[i..][1..] == lines[i + 1..];
    WrittenConcat(Fold(lines[i]), FoldAll(lines[i + 1..]));
    assert FoldAll(lines[i..]) == Fold(lines[i]) + FoldAll(lines[i + 1..]);
    assert out + (Written(Fold(lines[i])) + Written(FoldAll(lines[i + 1..])))
        == out + Written(Fold(lines[i])) + Written(FoldAll(lines[i + 1..]));
  }

  method FindCut(line: Bytes) returns (cut: nat)
    requires Valid(line) && |line| > MAX_LINE
    ensures cut == Cut(line, MAX_LINE)
  {
    ValidCut(line);
    cut := MAX_LINE;
    while !RuneStart(line[cut])
      invariant 0 < cut <= MAX_LINE
      invariant Cut(line, MAX_LINE) == Cut(line, cut)
      decreases cut
    {
      cut := cut - 1;
    }
  }

  method WriteLine(logical: Bytes) returns (out: Bytes)
    requires Valid(logical)
    ensures out == Written(Fold(logical))
  {
    out := [];
    var line := logical;
    while |line| > MAX_LINE
      invariant Valid(line)
      invariant out + Written(Fold(line)) == Written(Fold(logical))
      decreases |line|
    {
      var cut := FindCut(line);
      ValidCut(line);
      CutWritten(out, line, cut);
      out := out + line[..cut] + CRLF;
      line := [SPACE] + line[cut..];
    }
    assert Written([line]) == line + CRLF;
    assert out + (line + CRLF) == out + line + CRLF;
    out := out + line + CRLF;
  }

  lemma Joined(out: Bytes, head: Bytes, tail: Bytes)
    ensures out + head + CRLF + tail == out + (head + (CRLF + tail))
  {
  }

  lemma WrittenCons(out: Bytes, head: Bytes, parts: seq<Bytes>)
    ensures out + Written([head] + parts) == out + head + CRLF + Written(parts)
  {
    WrittenCut(head, parts, []);
    assert Written([head] + parts) + [] == Written([head] + parts) && Written(parts) + [] == Written(parts);
    Joined(out, head, Written(parts));
  }

  lemma FoldCut(line: Bytes)
    requires Valid(line) && |line| > MAX_LINE && Valid(Rest(line))
    ensures Fold(line) == [line[..Cut(line, MAX_LINE)]] + Fold(Rest(line))
  {
  }

  lemma CutWritten(out: Bytes, line: Bytes, cut: nat)
    requires Valid(line) && |line| > MAX_LINE && cut == Cut(line, MAX_LINE) && Valid(Rest(line))
    ensures out + line[..cut] + CRLF + Written(Fold(Rest(line))) == out + Written(Fold(line))
  {
    FoldCut(line);
    WrittenCons(out, line[..cut], Fold(Rest(line)));
  }

  lemma LinesAreWritable(rows: seq<Row>)
    requires RowsOk(rows)
    ensures AllValid(Lines(rows)) && AllOneLine(Lines(rows)) && AllStartAfresh(Lines(rows))
  {
    forall i | 0 <= i < |rows| ensures LineOk(Lines(rows)[i]) {
      assert LineOk(Line(rows[i]));
    }
  }

  /** The stream as it is written. */
  function File(rows: seq<Row>): Bytes
    requires RowsOk(rows)
  {
    LinesAreWritable(rows);
    Written(FoldAll(Lines(rows)))
  }

  /** A calendar reads back exactly the lines that were written. */
  lemma FileReadsBack(rows: seq<Row>)
    requires RowsOk(rows)
    ensures Split([], Unfold(File(rows))) == Lines(rows)
  {
    LinesAreWritable(rows);
    UnfoldAll(Lines(rows));
    SplitWritten(Lines(rows));
  }

  /** Before unfolding, every line is at most 75 octets of whole code points. */
  lemma FileLinesArePhysical(rows: seq<Row>)
    requires RowsOk(rows)
    ensures forall part :: part in Split([], File(rows)) ==> Physical(part)
  {
    LinesAreWritable(rows);
    FoldAllIsPhysical(Lines(rows));
    SplitWritten(FoldAll(Lines(rows)));
  }

  /** What a reader takes as the text of a property: everything after its name, unescaped. */
  function TextAfter(line: Bytes, name: string): Bytes {
    if |line| < |name| then [] else Unescape(line[|name|..])
  }

  /** Every text comes back with its line endings normalised, under the property it was written for. */
  lemma TextsReadBack(rows: seq<Row>, i: nat)
    requires RowsOk(rows) && i < |rows| && rows[i].Text?
    ensures
      var read := Split([], Unfold(File(rows)));
      && |read| == |rows|
      && Octets(rows[i].name) <= read[i]
      && TextAfter(read[i], rows[i].name) == Normalised(rows[i].text)
  {
    FileReadsBack(rows);
    UnescapeEscape(rows[i].text);
    assert RowOk(rows[i]);
    assert Line(rows[i])[|rows[i].name|..] == Escape(rows[i].text);
  }

  /** What a calendar reads of a file. */
  function Read(rows: seq<Row>): seq<Bytes>
    requires RowsOk(rows)
  {
    Split([], Unfold(File(rows)))
  }

  /** The octets of the line are these characters. */
  predicate Says(line: Bytes, s: string) {
    |line| == |s| && forall i :: 0 <= i < |s| ==> line[i] == s[i] as int
  }

  lemma FixedReadsBack(rows: seq<Row>, i: nat)
    requires RowsOk(rows) && i < |rows| && rows[i].Fixed?
    ensures |Read(rows)| == |rows| && Says(Read(rows)[i], rows[i].whole)
  {
    FileReadsBack(rows);
    assert RowOk(rows[i]);
  }

  lemma StampReadsBack(rows: seq<Row>, i: nat)
    requires RowsOk(rows) && i < |rows| && rows[i].Stamped?
    ensures |Read(rows)| == |rows| && Says(Read(rows)[i], rows[i].name + rows[i].value)
  {
    FileReadsBack(rows);
    assert RowOk(rows[i]);
  }

  /** A row of a text property reads back as the property's name and, unescaped, the text with LF line endings. */
  ghost predicate Tells(line: Bytes, name: string, text: Bytes) {
    |name| <= |line| && Says(line[..|name|], name) && TextAfter(line, name) == Normalised(text)
  }

  lemma NoteReadsBack(rows: seq<Row>, i: nat)
    requires RowsOk(rows) && i < |rows| && rows[i].Text?
    ensures |Read(rows)| == |rows| && Tells(Read(rows)[i], rows[i].name, rows[i].text)
  {
    TextsReadBack(rows, i);
    assert RowOk(rows[i]);
  }

  lemma OpeningInPlace(e: Event)
    requires EventOk(e)
    ensures
      var rows := Rows(e);
      && |rows| == 21
      && rows[0] == Fixed("BEGIN:VCALENDAR") && rows[1] == Fixed("VERSION:2.0")
      && rows[2] == Fixed("PRODID:-//Motion Concept//Appointments//EN") && rows[3] == Fixed("CALSCALE:GREGORIAN")
      && rows[4] == Fixed("BEGIN:VEVENT")
  {
  }

  lemma ClosingInPlace(e: Event)
    requires EventOk(e)
    ensures
      var rows := Rows(e);
      && |rows| == 21
      && rows[12] == Fixed("STATUS:CONFIRMED") && rows[13] == Fixed("TRANSP:OPAQUE")
      && rows[19] == Fixed("END:VEVENT") && rows[20] == Fixed("END:VCALENDAR")
  {
  }

  /** The calendar and the event open before their properties ... */
  lemma OpeningReadsBack(e: Event)
    requires EventOk(e)
    ensures
      var read := Read(Rows(e));
      && |read| == 21
      && Says(read[0], "BEGIN:VCALENDAR") && Says(read[1], "VERSION:2.0")
      && Says(read[2], "PRODID:-//Motion Concept//Appointments//EN") && Says(read[3], "CALSCALE:GREGORIAN")
      && Says(read[4], "BEGIN:VEVENT")
  {
    OpeningInPlace(e);
    FixedReadsBack(Rows(e), 0);
    FixedReadsBack(Rows(e), 1);
    FixedReadsBack(Rows(e), 2);
    FixedReadsBack(Rows(e), 3);
    FixedReadsBack(Rows(e), 4);
  }

  /** ... and close behind them. */
  lemma ClosingReadsBack(e: Event)
    requires EventOk(e)
    ensures
      var read := Read(Rows(e));
      && |read| == 21
      && Says(read[12], "STATUS:CONFIRMED") && Says(read[13], "TRANSP:OPAQUE")
      && Says(read[19], "END:VEVENT") && Says(read[20], "END:VCALENDAR")
  {
    ClosingInPlace(e);
    FixedReadsBack(Rows(e), 12);
    FixedReadsBack(Rows(e), 13);
    FixedReadsBack(Rows(e), 19);
    FixedReadsBack(Rows(e), 20);
  }

  lemma AlarmInPlace(e: Event)
    requires EventOk(e)
    ensures
      var rows := Rows(e);
      && |rows| == 21
      && rows[14] == Fixed("BEGIN:VALARM") && rows[15] == Fixed("TRIGGER:-PT24H") && rows[16] == Fixed("ACTION:DISPLAY")
      && rows[17] == Text("DESCRIPTION:", e.title) && rows[18] == Fixed("END:VALARM")
  {
  }

  /** The alarm rings a day ahead and shows the title. */
  lemma AlarmReadsBack(e: Event)
    requires EventOk(e)
    ensures
      var read := Read(Rows(e));
      && |read| == 21
      && Says(read[14], "BEGIN:VALARM") && Says(read[15], "TRIGGER:-PT24H") && Says(read[16], "ACTION:DISPLAY")
      && Tells(read[17], "DESCRIPTION:", e.title) && Says(read[18], "END:VALARM")
  {
    AlarmInPlace(e);
    FixedReadsBack(Rows(e), 14);
    FixedReadsBack(Rows(e), 15);
    FixedReadsBack(Rows(e), 16);
    NoteReadsBack(Rows(e), 17);
    FixedReadsBack(Rows(e), 18);
  }

  lemma RowsInPlace(e: Event)
    requires EventOk(e)
    ensures
      var rows := Rows(e);
      && |rows| == 21
      && rows[5] == Stamped("UID:", e.uid + "@motionconcept.rest") && rows[6] == Stamped("DTSTAMP:", e.now)
      && rows[7] == Stamped("DTSTART:", e.start) && rows[8] == Stamped("DTEND:", e.end)
      && rows[9] == Text("SUMMARY:", e.title) && rows[10] == Text("LOCATION:", e.address)
      && rows[11] == Text("DESCRIPTION:", e.description)
  {
  }

  /** Identity and instants arrive under their own names. */
  lemma InstantsReadBack(e: Event)
    requires EventOk(e)
    ensures
      var read := Read(Rows(e));
      && |read| == 21
      && Says(read[5], "UID:" + (e.uid + "@motionconcept.rest")) && Says(read[6], "DTSTAMP:" + e.now)
      && Says(read[7], "DTSTART:" + e.start) && Says(read[8], "DTEND:" + e.end)
  {
    RowsInPlace(e);
    StampReadsBack(Rows(e), 5);
    StampReadsBack(Rows(e), 6);
    StampReadsBack(Rows(e), 7);
    StampReadsBack(Rows(e), 8);
  }

  /** So do title, place and description. */
  lemma EventReadsBack(e: Event)
    requires EventOk(e)
    ensures
      var read := Read(Rows(e));
      && |read| == 21
      && Tells(read[9], "SUMMARY:", e.title) && Tells(read[10], "LOCATION:", e.address)
      && Tells(read[11], "DESCRIPTION:", e.description)
  {
    RowsInPlace(e);
    NoteReadsBack(Rows(e), 9);
    NoteReadsBack(Rows(e), 10);
    NoteReadsBack(Rows(e), 11);
  }

  // ---------------------------------------------------------------- texts that are not UTF-8

  lemma NameAddsNoRun(name: Bytes, s: Bytes)
    requires Ascii(name)
    ensures LongRun(name + s) <==> LongRun(s)
  {
    var line := name + s;
    assert forall i :: 0 <= i < |s| ==> s[i] == line[|name| + i];
    if LongRun(s) {
      var k: nat :| RunAt(s, k);
      assert RunAt(line, |name| + k);
    }
    if LongRun(line) {
      var k: nat :| RunAt(line, k);
      assert Continuation(line[k]);
      assert RunAt(s, k - |name|);
    }
  }

  /**
   The line of a text property is written in finitely many cuts exactly if the text has no 74
   continuation bytes in a row.
   */
  lemma TextIsWrittenExactly(name: string, text: Bytes)
    requires Name(name) && |name| >= 2
    ensures Ends(Octets(name) + Escape(text)) <==> !LongRun(text)
  {
    LoopEndsExactly(Octets(name) + Escape(text));
    NameAddsNoRun(Octets(name), Escape(text));
    EscapeKeepsLongRuns(text);
  }

  /** A letter and 80 continuation bytes: a text that is never written. */
  lemma SomeTextIsNeverWritten(name: string)
    requires Name(name) && |name| >= 2
    ensures !Ends(Octets(name) + Escape([97] + seq(80, _ => 0x80)))
  {
    var text: Bytes := [97] + seq(80, _ => 0x80);
    assert RunAt(text, 1);
    TextIsWrittenExactly(name, text);
  }

  /** Well-formed texts have no such run. */
  lemma ValidTextsAreWritten(text: Bytes)
    requires Valid(text)
    ensures !LongRun(text)
  {
    if LongRun(text) {
      var k: nat :| RunAt(text, k);
      RuneStartNearby(text, k + 3);
      assert false;
    }
  }
}
