/**
 The three layouts of the appointment SMS and why none of them needs a fourth segment.
 */
module AppointmentSms {
  import opened SmsText

  datatype Appointment = Appointment(url: string, reference: string, service: string, specialist: string,
                                     year: nat, month: nat, day: nat, hour: nat, minute: nat)

  /** The studio: its address in the customer's language, its phone and the link to its bot. */
  datatype Studio = Studio(address: string, phone: string, bot: string)

  predicate OnClock(a: Appointment) { a.month < 100 && a.day < 100 && a.hour < 100 && a.minute < 100 }

  function Digit(n: nat): char
    requires n < 10
  {
    '0' + n as char
  }

  function Decimal(n: nat): string { if n < 10 then [Digit(n)] else Decimal(n / 10) + [Digit(n % 10)] }

  function Padded(n: nat, width: nat): string
    decreases width
  {
    if width == 0 then (if n == 0 then "" else Decimal(n)) else Padded(n / 10, width - 1) + [Digit(n % 10)]
  }

  /** Day, month, year, hour and minute; a year has four digits or more. */
  function Date(a: Appointment): string
    requires OnClock(a)
  {
    Padded(a.day, 2) + "." + Padded(a.month, 2) + "." + Padded(a.year, 4) + " "
    + Padded(a.hour, 2) + ":" + Padded(a.minute, 2)
  }

  function Join(lines: seq<string>): string {
    if lines == [] then ""
    else if |lines| == 1 then lines[0]
    else Join(lines[..|lines| - 1]) + "\n" + lines[|lines| - 1]
  }

  function Details(a: Appointment): string {
    var service := Field(a.service, 45);
    if a.specialist == "" then service
    else (if service == "" then "" else service + " · ") + Field(a.specialist, 20)
  }

  function WithBot(title: string, a: Appointment, studio: Studio): string
    requires OnClock(a)
  {
    Join(["E-Motion", Field(title, 18), Date(a), a.url, studio.bot])
  }

  function WithPhone(title: string, a: Appointment, studio: Studio): string
    requires OnClock(a)
  {
    Join(["E-Motion Concept", Field(title, 24), Date(a), a.url, Field(studio.phone, 20)])
  }

  function Maybe(line: string, shown: bool): seq<string> { if shown then [line] else [] }

  function Lines(title: string, a: Appointment, studio: Studio): seq<string>
    requires OnClock(a)
  {
    ["E-Motion Concept", Field(title, 42), Date(a)]
    + Maybe(Details(a), Details(a) != "")
    + Maybe(Field(studio.address, 34), Field(studio.address, 34) != "")
    + Maybe(Field(studio.phone, 20), studio.phone != "")
  }

  function Sms(title: string, a: Appointment, studio: Studio): string
    requires OnClock(a)
  {
    if a.url != "" && Octets(a.url) <= MAX_URL then
      if a.reference != "" && Units(WithBot(title, a, studio)) <= SEGMENTS then WithBot(title, a, studio)
      else WithPhone(title, a, studio)
    else Join(Lines(title, a, studio))
  }

  method ComposeDetails(a: Appointment) returns (details: string)
    ensures details == Details(a)
  {
    details := ShortField(a.service, 45);
    if a.specialist != "" {
      if details != "" {
        details := details + " · ";
      }
      var specialist := ShortField(a.specialist, 20);
      details := details + specialist;
    }
  }

  method ComposeLines(title: string, a: Appointment, studio: Studio) returns (lines: seq<string>)
    requires OnClock(a)
    ensures lines == Lines(title, a, studio)
  {
    var long := ShortField(title, 42);
    lines := ["E-Motion Concept", long, Date(a)];
    var details := ComposeDetails(a);
    if details != "" {
      lines := lines + [details];
    }
    assert lines == ["E-Motion Concept", long, Date(a)] + Maybe(details, details != "");
    ghost var before := lines;
    var address := ShortField(studio.address, 34);
    if address != "" {
      lines := lines + [address];
    }
    assert lines == before + Maybe(address, address != "");
    before := lines;
    if studio.phone != "" {
      var phone := ShortField(studio.phone, 20);
      lines := lines + [phone];
    }
    assert lines == before + Maybe(Field(studio.phone, 20), studio.phone != "");
  }

  method Compose(title: string, a: Appointment, studio: Studio) returns (text: string)
    requires OnClock(a)
    ensures text == Sms(title, a, studio)
  {
    if a.url != "" && Octets(a.url) <= MAX_URL {
      if a.reference != "" {
        var shortTitle := ShortField(title, 18);
        var withBot := Join(["E-Motion", shortTitle, Date(a), a.url, studio.bot]);
        if Units(withBot) <= SEGMENTS {
          return withBot;
        }
      }
      var middle := ShortField(title, 24);
      var phone := ShortField(studio.phone, 20);
      return Join(["E-Motion Concept", middle, Date(a), a.url, phone]);
    }
    var lines := ComposeLines(title, a, studio);
    return Join(lines);
  }

  // ---------------------------------------------------------------- how long it gets

  lemma {:induction false} Narrow(s: string)
    requires forall i :: 0 <= i < |s| ==> s[i] as int <= 0xFFFF
    ensures Units(s) == |s|
  {
    if s != "" {
      Narrow(s[1..]);
    }
  }

  lemma {:induction false} UnitsWithinOctets(s: string)
    ensures Units(s) <= Octets(s)
  {
    if s != "" {
      UnitsWithinOctets(s[1..]);
    }
  }

  lemma {:induction false} DecimalLength(n: nat)
    ensures |Decimal(n)| >= 1 && forall i :: 0 <= i < |Decimal(n)| ==> Decimal(n)[i] as int < 0x80
  {
    if n >= 10 {
      DecimalLength(n / 10);
    }
  }

  function Power(width: nat): nat { if width == 0 then 1 else 10 * Power(width - 1) }

  lemma {:induction false} PaddedLength(n: nat, width: nat)
    ensures Units(Padded(n, width)) == |Padded(n, width)| >= width
    ensures |Padded(n, width)| == width <==> n < Power(width)
    decreases width
  {
    if width == 0 {
      DecimalLength(n);
      Narrow(Padded(n, 0));
    } else {
      PaddedLength(n / 10, width - 1);
      UnitsConcat(Padded(n / 10, width - 1), [Digit(n % 10)]);
      Narrow([Digit(n % 10)]);
    }
  }

  lemma Joint(a: string, mark: string, b: string)
    requires |mark| == 1 && mark[0] as int <= 0xFFFF
    ensures Units(a + mark + b) == Units(a) + 1 + Units(b)
  {
    UnitsConcat(a + mark, b);
    UnitsConcat(a, mark);
    Narrow(mark);
  }

  /** Sixteen characters, and one more for every digit the year has over four. */
  lemma DateLength(a: Appointment)
    requires OnClock(a)
    ensures Units(Date(a)) == 12 + |Padded(a.year, 4)| >= 16
    ensures Units(Date(a)) == 16 <==> a.year < 10000
  {
    PaddedLength(a.day, 2);
    PaddedLength(a.month, 2);
    PaddedLength(a.year, 4);
    PaddedLength(a.hour, 2);
    PaddedLength(a.minute, 2);
    var d := Padded(a.day, 2);
    var dm := d + "." + Padded(a.month, 2);
    var dmy := dm + "." + Padded(a.year, 4);
    var dmyh := dmy + " " + Padded(a.hour, 2);
    Joint(d, ".", Padded(a.month, 2));
    Joint(dm, ".", Padded(a.year, 4));
    Joint(dmy, " ", Padded(a.hour, 2));
    Joint(dmyh, ":", Padded(a.minute, 2));
    assert Power(2) == 100 && Power(4) == 10000;
  }

  lemma JoinAppend(lines: seq<string>, line: string)
    requires lines != []
    ensures Units(Join(lines + [line])) == Units(Join(lines)) + 1 + Units(line)
  {
    assert (lines + [line])[..|lines|] == lines;
    Joint(Join(lines), "\n", line);
  }

  lemma ThreeLines(a: string, b: string, c: string)
    ensures Units(Join([a, b, c])) == Units(a) + Units(b) + Units(c) + 2
  {
    JoinAppend([a], b);
    JoinAppend([a, b], c);
    assert [a] + [b] == [a, b] && [a, b] + [c] == [a, b, c];
  }

  lemma FiveLines(a: string, b: string, c: string, d: string, e: string)
    ensures Units(Join([a, b, c, d, e])) == Units(a) + Units(b) + Units(c) + Units(d) + Units(e) + 4
  {
    ThreeLines(a, b, c);
    JoinAppend([a, b, c], d);
    JoinAppend([a, b, c, d], e);
    assert [a, b, c] + [d] == [a, b, c, d] && [a, b, c, d] + [e] == [a, b, c, d, e];
  }

  lemma MaybeAdds(lines: seq<string>, line: string, shown: bool)
    requires lines != []
    ensures Units(Join(lines + Maybe(line, shown))) == Units(Join(lines)) + if shown then 1 + Units(line) else 0
  {
    if shown {
      JoinAppend(lines, line);
    } else {
      assert lines + Maybe(line, shown) == lines;
    }
  }

  lemma Heading(s: string)
    requires s == "E-Motion Concept"
    ensures Units(s) == 16
  {
    Narrow(s);
  }

  lemma Dot(s: string)
    requires s == " · "
    ensures Units(s) == 3
  {
    Narrow(s);
  }

  lemma WithPhoneFits(title: string, a: Appointment, studio: Studio)
    requires OnClock(a) && a.year < 10000 && Octets(a.url) <= MAX_URL
    ensures Units(WithPhone(title, a, studio)) <= SEGMENTS - 1
  {
    Heading("E-Motion Concept");
    DateLength(a);
    FieldFits(title, 24);
    FieldFits(studio.phone, 20);
    UnitsWithinOctets(a.url);
    FiveLines("E-Motion Concept", Field(title, 24), Date(a), a.url, Field(studio.phone, 20));
  }

  lemma DetailsLength(a: Appointment)
    ensures Units(Details(a)) ==
      if a.specialist == "" then Units(Field(a.service, 45))
      else (if Field(a.service, 45) == "" then 0 else Units(Field(a.service, 45)) + 3) + Units(Field(a.specialist, 20))
  {
    Dot(" · ");
    UnitsConcat(Field(a.service, 45), " · ");
    UnitsConcat(if Field(a.service, 45) == "" then "" else Field(a.service, 45) + " · ", Field(a.specialist, 20));
  }

  lemma LinesLength(title: string, a: Appointment, studio: Studio)
    requires OnClock(a)
    ensures
      Units(Join(Lines(title, a, studio)))
      == 18 + Units(Field(title, 42)) + Units(Date(a))
         + (if Details(a) != "" then 1 + Units(Details(a)) else 0)
         + (if Field(studio.address, 34) != "" then 1 + Units(Field(studio.address, 34)) else 0)
         + (if studio.phone != "" then 1 + Units(Field(studio.phone, 20)) else 0)
  {
    Heading("E-Motion Concept");
    var three := ["E-Motion Concept", Field(title, 42), Date(a)];
    ThreeLines("E-Motion Concept", Field(title, 42), Date(a));
    var four := three + Maybe(Details(a), Details(a) != "");
    MaybeAdds(three, Details(a), Details(a) != "");
    var five := four + Maybe(Field(studio.address, 34), Field(studio.address, 34) != "");
    MaybeAdds(four, Field(studio.address, 34), Field(studio.address, 34) != "");
    MaybeAdds(five, Field(studio.phone, 20), studio.phone != "");
  }

  lemma LinesFit(title: string, a: Appointment, studio: Studio)
    requires OnClock(a) && a.year < 10000
    ensures Units(Join(Lines(title, a, studio))) <= SEGMENTS
  {
    LinesLength(title, a, studio);
    DetailsLength(a);
    DateLength(a);
    FieldFits(title, 42);
    FieldFits(a.service, 45);
    FieldFits(a.specialist, 20);
    FieldFits(studio.address, 34);
    FieldFits(studio.phone, 20);
  }

  /** Three segments are enough, whatever the texts are. */
  lemma SmsFits(title: string, a: Appointment, studio: Studio)
    requires OnClock(a) && a.year < 10000
    ensures Units(Sms(title, a, studio)) <= SEGMENTS
  {
    if a.url != "" && Octets(a.url) <= MAX_URL {
      WithPhoneFits(title, a, studio);
    } else {
      LinesFit(title, a, studio);
    }
  }

  function Fill(n: nat): string { seq(n, _ => 'x') }

  lemma {:induction false} FillIsFull(n: nat)
    ensures Units(Fill(n)) == n && Word(Fill(n)) == Fill(n) && Collapse(Fill(n)) == Fill(n)
  {
    if n > 0 {
      FillIsFull(n - 1);
      assert Fill(n)[1..] == Fill(n - 1);
    }
  }

  lemma FilledField(n: nat)
    ensures Field(Fill(n), n) == Fill(n) && Units(Fill(n)) == n
  {
    FillIsFull(n);
  }

  function Fullest(year: nat): Appointment { Appointment("", "", Fill(45), Fill(20), year, 1, 1, 12, 0) }

  /** The long layout with every field full: 185 units and the date. */
  lemma FullestLength(year: nat)
    ensures Units(Sms(Fill(42), Fullest(year), Studio(Fill(34), Fill(20), ""))) == 185 + Units(Date(Fullest(year)))
  {
    FilledField(42);
    FilledField(45);
    FilledField(20);
    FilledField(34);
    LinesLength(Fill(42), Fullest(year), Studio(Fill(34), Fill(20), ""));
    DetailsLength(Fullest(year));
  }

  /**
   The bound holds for all appointments of a year exactly when the year has at most four digits,
   and it is then reached.
   */
  lemma BoundIsExact(year: nat)
    ensures
      (forall title, a: Appointment, studio ::
         OnClock(a) && a.year == year ==> Units(Sms(title, a, studio)) <= SEGMENTS)
      <==> year < 10000
    ensures year < 10000 ==> Units(Sms(Fill(42), Fullest(year), Studio(Fill(34), Fill(20), ""))) == SEGMENTS
  {
    FullestLength(year);
    DateLength(Fullest(year));
    if year < 10000 {
      forall title, a: Appointment, studio | OnClock(a) && a.year == year
        ensures Units(Sms(title, a, studio)) <= SEGMENTS
      {
        SmsFits(title, a, studio);
      }
    }
  }

  // ---------------------------------------------------------------- what it says

  predicate Digits(s: string) { forall i :: 0 <= i < |s| ==> '0' <= s[i] <= '9' }

  /** The number a row of digits stands for. */
  function Number(s: string): nat
    requires Digits(s)
  {
    if s == "" then 0 else 10 * Number(s[..|s| - 1]) + (s[|s| - 1] as int - '0' as int)
  }

  lemma NumberSnoc(s: string, d: nat)
    requires Digits(s) && d < 10
    ensures Digits(s + [Digit(d)]) && Number(s + [Digit(d)]) == 10 * Number(s) + d
  {
    assert (s + [Digit(d)])[..|s|] == s;
  }

  lemma {:induction false} DecimalReadsBack(n: nat)
    ensures Digits(Decimal(n)) && Number(Decimal(n)) == n
  {
    if n < 10 {
      NumberSnoc("", n);
      assert "" + [Digit(n)] == [Digit(n)];
    } else {
      DecimalReadsBack(n / 10);
      NumberSnoc(Decimal(n / 10), n % 10);
    }
  }

  lemma {:induction false} PaddedReadsBack(n: nat, width: nat)
    ensures Digits(Padded(n, width)) && Number(Padded(n, width)) == n
    decreases width
  {
    if width == 0 {
      DecimalReadsBack(n);
    } else {
      PaddedReadsBack(n / 10, width - 1);
      NumberSnoc(Padded(n / 10, width - 1), n % 10);
    }
  }

  /** From `i` to `j` stand the digits of `n`. */
  predicate Shows(s: string, i: nat, j: nat, n: nat) {
    i < j <= |s| && Digits(s[i..j]) && Number(s[i..j]) == n
  }

  lemma PaddedLengths(a: Appointment)
    requires OnClock(a)
    ensures |Padded(a.day, 2)| == |Padded(a.month, 2)| == |Padded(a.hour, 2)| == |Padded(a.minute, 2)| == 2
    ensures |Padded(a.year, 4)| >= 4 && |Date(a)| == 12 + |Padded(a.year, 4)|
  {
    PaddedLength(a.day, 2);
    PaddedLength(a.month, 2);
    PaddedLength(a.year, 4);
    PaddedLength(a.hour, 2);
    PaddedLength(a.minute, 2);
    assert Power(2) == 100;
  }

  lemma DateParts(d: string, m: string, y: string, h: string, n: string)
    requires |d| == |m| == |h| == |n| == 2
    ensures
      var s := d + "." + m + "." + y + " " + h + ":" + n;
      var k := 6 + |y|;
      && |s| == k + 6
      && s[0..2] == d && s[2] == '.' && s[3..5] == m && s[5] == '.' && s[6..k] == y && s[k] == ' '
      && s[k + 1..k + 3] == h && s[k + 3] == ':' && s[k + 4..|s|] == n
  {
    var dm := d + "." + m;
    var dmy := dm + "." + y;
    var dmyh := dmy + " " + h;
    assert dm[0..2] == d && dm[3..5] == m;
    assert dmy[0..5] == dm && dmy[6..6 + |y|] == y;
  }

  /** Day, month, year, hour and minute stand in this order, two digits each but for the year. */
  lemma DateReadsBack(a: Appointment)
    requires OnClock(a)
    ensures
      var s := Date(a);
      var y := |s| - 6;
      && |s| >= 16
      && Shows(s, 0, 2, a.day) && s[2] == '.' && Shows(s, 3, 5, a.month) && s[5] == '.'
      && Shows(s, 6, y, a.year) && s[y] == ' '
      && Shows(s, y + 1, y + 3, a.hour) && s[y + 3] == ':' && Shows(s, y + 4, |s|, a.minute)
  {
    PaddedLengths(a);
    PaddedReadsBack(a.day, 2);
    PaddedReadsBack(a.month, 2);
    PaddedReadsBack(a.year, 4);
    PaddedReadsBack(a.hour, 2);
    PaddedReadsBack(a.minute, 2);
    DateParts(Padded(a.day, 2), Padded(a.month, 2), Padded(a.year, 4), Padded(a.hour, 2), Padded(a.minute, 2));
    assert Date(a) == Padded(a.day, 2) + "." + Padded(a.month, 2) + "." + Padded(a.year, 4) + " "
                      + Padded(a.hour, 2) + ":" + Padded(a.minute, 2);
  }

  lemma PaddedIsOneLine(n: nat, width: nat)
    ensures '\n' !in Padded(n, width)
  {
    PaddedReadsBack(n, width);
  }

  lemma DateIsOneLine(a: Appointment)
    requires OnClock(a)
    ensures '\n' !in Date(a)
  {
    PaddedIsOneLine(a.day, 2);
    PaddedIsOneLine(a.month, 2);
    PaddedIsOneLine(a.year, 4);
    PaddedIsOneLine(a.hour, 2);
    PaddedIsOneLine(a.minute, 2);
    var day, time := Padded(a.day, 2) + "." + Padded(a.month, 2) + ".", Padded(a.hour, 2) + ":" + Padded(a.minute, 2);
    assert '\n' !in day && '\n' !in time;
    assert Date(a) == day + Padded(a.year, 4) + " " + time;
  }

  /** The lines of a text; `head` is what was read of the current one. */
  function LinesOf(head: string, s: string): seq<string>
    decreases |s|
  {
    if s == "" then [head]
    else if s[0] == '\n' then [head] + LinesOf("", s[1..])
    else LinesOf(head + [s[0]], s[1..])
  }

  lemma {:induction false} OneMoreLine(head: string, s: string, line: string)
    requires '\n' !in line
    ensures LinesOf(head, s + "\n" + line) == LinesOf(head, s) + [line]
    decreases |s|
  {
    var all := s + "\n" + line;
    if s == "" {
      assert all[1..] == line;
      LastLine("", line);
      assert "" + line == line;
    } else {
      assert all[1..] == s[1..] + "\n" + line;
      if s[0] == '\n' {
        OneMoreLine("", s[1..], line);
      } else {
        OneMoreLine(head + [s[0]], s[1..], line);
      }
    }
  }

  lemma {:induction false} LastLine(head: string, s: string)
    requires '\n' !in s
    ensures LinesOf(head, s) == [head + s]
    decreases |s|
  {
    if s == "" {
      assert head + s == head;
    } else {
      LastLine(head + [s[0]], s[1..]);
      assert head + [s[0]] + s[1..] == head + s;
    }
  }

  predicate OneLiners(lines: seq<string>) { forall i :: 0 <= i < |lines| ==> '\n' !in lines[i] }

  lemma {:induction false} JoinReadsBack(lines: seq<string>)
    requires lines != [] && OneLiners(lines)
    ensures LinesOf("", Join(lines)) == lines
    decreases |lines|
  {
    if |lines| == 1 {
      LastLine("", lines[0]);
      assert "" + lines[0] == lines[0];
    } else {
      JoinReadsBack(lines[..|lines| - 1]);
      OneMoreLine("", Join(lines[..|lines| - 1]), lines[|lines| - 1]);
      assert lines == lines[..|lines| - 1] + [lines[|lines| - 1]];
    }
  }

  /** The service, the specialist, or both with a dot between them. */
  predicate NamesService(line: string, service: string, specialist: string) {
    var name := Field(specialist, 20);
    && (specialist == "" ==> line == service)
    && (specialist != "" && service == "" ==> line == name)
    && (specialist != "" && service != "" ==> line == service + " · " + name)
  }

  /** About a visit with a link: title, date and link, and the studio's bot if all that fits, or else its phone. */
  ghost predicate SaysWithLink(lines: seq<string>, title: string, a: Appointment, studio: Studio)
    requires OnClock(a)
  {
    var withBot := ["E-Motion", Field(title, 18), Date(a), a.url, studio.bot];
    if a.reference != "" && Units(Join(withBot)) <= 201 then lines == withBot
    else lines == ["E-Motion Concept", Field(title, 24), Date(a), a.url, Field(studio.phone, 20)]
  }

  /** Without a link: title and date, then what there is of service and specialist, address and phone, in this order. */
  ghost predicate SaysWithoutLink(lines: seq<string>, title: string, a: Appointment, studio: Studio)
    requires OnClock(a)
  {
    exists details :: NamesService(details, Field(a.service, 45), a.specialist)
      && lines == ["E-Motion Concept", Field(title, 42), Date(a)]
                  + (if details == "" then [] else [details])
                  + (if Collapse(studio.address) == "" then [] else [Field(studio.address, 34)])
                  + (if studio.phone == "" then [] else [Field(studio.phone, 20)])
  }

  lemma EmptyField(text: string, limit: nat)
    requires limit >= 1
    ensures Field(text, limit) == "" <==> Collapse(text) == ""
  {
  }

  lemma DetailsNameService(a: Appointment)
    ensures NamesService(Details(a), Field(a.service, 45), a.specialist) && '\n' !in Details(a)
  {
    FieldIsOneLine(a.service, 45);
    FieldIsOneLine(a.specialist, 20);
  }

  lemma LinkLinesReadBack(title: string, a: Appointment, studio: Studio)
    requires OnClock(a) && '\n' !in a.url && '\n' !in studio.bot && a.url != "" && Octets(a.url) <= 120
    ensures SaysWithLink(LinesOf("", Sms(title, a, studio)), title, a, studio)
  {
    DateIsOneLine(a);
    FieldIsOneLine(title, 18);
    FieldIsOneLine(title, 24);
    FieldIsOneLine(studio.phone, 20);
    JoinReadsBack(["E-Motion", Field(title, 18), Date(a), a.url, studio.bot]);
    JoinReadsBack(["E-Motion Concept", Field(title, 24), Date(a), a.url, Field(studio.phone, 20)]);
  }

  lemma ShownAreOneLiners(head: seq<string>, details: string, address: string, phone: string, a: bool, b: bool, c: bool)
    requires OneLiners(head) && '\n' !in details && '\n' !in address && '\n' !in phone
    ensures OneLiners(head + Maybe(details, a) + Maybe(address, b) + Maybe(phone, c))
  {
  }

  lemma HeadIsOneLiners(title: string, a: Appointment)
    requires OnClock(a)
    ensures OneLiners(["E-Motion Concept", Field(title, 42), Date(a)])
  {
    DateIsOneLine(a);
    FieldIsOneLine(title, 42);
  }

  lemma LinesAreOneLiners(title: string, a: Appointment, studio: Studio)
    requires OnClock(a)
    ensures OneLiners(Lines(title, a, studio))
  {
    var head := ["E-Motion Concept", Field(title, 42), Date(a)];
    HeadIsOneLiners(title, a);
    DetailsNameService(a);
    FieldIsOneLine(studio.phone, 20);
    FieldIsOneLine(studio.address, 34);
    ShownAreOneLiners(
      head, Details(a), Field(studio.address, 34), Field(studio.phone, 20),
      Details(a) != "", Field(studio.address, 34) != "", studio.phone != "");
  }

  lemma OtherLinesReadBack(title: string, a: Appointment, studio: Studio)
    requires OnClock(a) && !(a.url != "" && Octets(a.url) <= 120)
    ensures SaysWithoutLink(LinesOf("", Sms(title, a, studio)), title, a, studio)
  {
    LinesAreOneLiners(title, a, studio);
    DetailsNameService(a);
    EmptyField(studio.address, 34);
    JoinReadsBack(Lines(title, a, studio));
    assert NamesService(Details(a), Field(a.service, 45), a.specialist);
  }

  /** Read line by line the message says when, what, where and how to get in touch. */
  lemma SmsSaysEverything(title: string, a: Appointment, studio: Studio)
    requires OnClock(a) && '\n' !in a.url && '\n' !in studio.bot
    ensures
      var lines := LinesOf("", Sms(title, a, studio));
      if a.url != "" && Octets(a.url) <= 120 then SaysWithLink(lines, title, a, studio)
      else SaysWithoutLink(lines, title, a, studio)
  {
    if a.url != "" && Octets(a.url) <= 120 {
      LinkLinesReadBack(title, a, studio);
    } else {
      OtherLinesReadBack(title, a, studio);
    }
  }
}
