/**
 The text of an appointment SMS, which must fit three Unicode segments: 201 UTF-16 units.
 */
module SmsText {

  const SEGMENTS: nat := 201
  const MAX_URL: nat := 120

  function Size(c: char): nat { if c as int > 0xFFFF then 2 else 1 }

  /** Length in UTF-16. */
  function Units(s: string): nat {
    if s == "" then 0 else Size(s[0]) + Units(s[1..])
  }

  /** Length in UTF-8. */
  function Octets(s: string): nat {
    if s == "" then 0
    else
      (if s[0] as int < 0x80 then 1 else if s[0] as int < 0x800 then 2 else if s[0] as int <= 0xFFFF then 3 else 4)
      + Octets(s[1..])
  }

  /** Unicode white space. */
  predicate Space(c: char) {
    var n := c as int;
    9 <= n <= 13 || n == 32 || n == 0x85 || n == 0xA0 || n == 0x1680 || 0x2000 <= n <= 0x200A
    || n == 0x2028 || n == 0x2029 || n == 0x202F || n == 0x205F || n == 0x3000
  }

  /** Words separated by single spaces; `gap` tells whether white space was just passed after a word. */
  function Collapsed(s: string, gap: bool): string
    decreases |s|, 1
  {
    if s == "" then ""
    else if Space(s[0]) then Collapsed(s[1..], gap)
    else (if gap then " " else "") + Word(s)
  }

  /** The word at the front and what follows it. */
  function Word(s: string): string
    decreases |s|, 0
  {
    if s == "" then ""
    else if Space(s[0]) then Collapsed(s[1..], true)
    else [s[0]] + Word(s[1..])
  }

  function Collapse(s: string): string { Collapsed(s, false) }

  function TrimLeft(s: string): string { if s == "" || !Space(s[0]) then s else TrimLeft(s[1..]) }

  function TrimRight(s: string): string {
    if s == "" || !Space(s[|s| - 1]) then s else TrimRight(s[..|s| - 1])
  }

  function Trim(s: string): string { TrimRight(TrimLeft(s)) }

  /** How many characters fit into so many units. */
  function Fit(s: string, room: int): (n: nat)
    ensures n <= |s|
  {
    if s == "" || Size(s[0]) > room then 0 else 1 + Fit(s[1..], room - Size(s[0]))
  }

  const ELLIPSIS: char := '\U{2026}'

  function Field(text: string, limit: nat): string {
    var t := Collapse(text);
    if Units(t) <= limit then t else Trim(t[..Fit(t, limit - 1)]) + [ELLIPSIS]
  }

  lemma {:induction false} UnitsConcat(a: string, b: string)
    ensures Units(a + b) == Units(a) + Units(b)
  {
    if a == "" {
      assert a + b == b;
    } else {
      UnitsConcat(a[1..], b);
      assert (a + b)[1..] == a[1..] + b;
    }
  }

  lemma {:induction false} FitIsLongest(s: string, room: int)
    requires room >= 0
    ensures Units(s[..Fit(s, room)]) <= room
    ensures Fit(s, room) < |s| ==> Units(s[..Fit(s, room) + 1]) > room
  {
    if s != "" {
      if Size(s[0]) <= room {
        FitIsLongest(s[1..], room - Size(s[0]));
        var n := Fit(s, room);
        assert s[..n][1..] == s[1..][..n - 1];
        if n < |s| {
          assert s[..n + 1][1..] == s[1..][..n];
        }
      } else {
        assert s[..1][1..] == "";
      }
    }
  }

  lemma {:induction false} TrimShortens(s: string)
    ensures Units(TrimRight(s)) <= Units(s) && Units(TrimLeft(s)) <= Units(s)
  {
    if s != "" {
      UnitsConcat(s[..|s| - 1], s[|s| - 1..]);
      assert s == s[..|s| - 1] + s[|s| - 1..];
      TrimShortens(s[..|s| - 1]);
      TrimShortens(s[1..]);
    }
  }

  /** A field keeps its limit exactly when there is room for the ellipsis or nothing to show. */
  lemma FieldFits(text: string, limit: nat)
    ensures Units(Field(text, limit)) <= limit <==> limit >= 1 || Collapse(text) == ""
  {
    var t := Collapse(text);
    if Units(t) > limit {
      var cut := t[..Fit(t, limit - 1)];
      UnitsConcat(Trim(cut), [ELLIPSIS]);
      assert [ELLIPSIS][1..] == "";
      if limit >= 1 {
        FitIsLongest(t, limit - 1);
        TrimShortens(cut);
        TrimShortens(TrimLeft(cut));
      }
    }
  }

  function FitFrom(t: string, i: nat, room: int): nat
    requires i <= |t|
  {
    Fit(t[i..], room)
  }

  lemma FitStep(t: string, i: nat, room: int)
    requires i < |t| && Size(t[i]) <= room
    ensures FitFrom(t, i, room) == 1 + FitFrom(t, i + 1, room - Size(t[i]))
  {
    assert t[i..][0] == t[i] && t[i..][1..] == t[i + 1..];
  }

  lemma FitStops(t: string, i: nat, room: int)
    requires i <= |t| && (i < |t| ==> Size(t[i]) > room)
    ensures FitFrom(t, i, room) == 0
  {
  }

  /** The loop over the characters. */
  method Truncate(t: string, room: int) returns (truncated: string)
    ensures truncated == t[..Fit(t, room)]
  {
    truncated := "";
    var units := 0;
    var i := 0;
    assert t[0..] == t;
    while i < |t| && units + Size(t[i]) <= room
      invariant 0 <= i <= |t| && truncated == t[..i]
      invariant Fit(t, room) == i + FitFrom(t, i, room - units)
    {
      FitStep(t, i, room - units);
      truncated := truncated + [t[i]];
      units := units + Size(t[i]);
      i := i + 1;
    }
    FitStops(t, i, room - units);
  }

  method ShortField(text: string, limit: nat) returns (field: string)
    ensures field == Field(text, limit)
  {
    var t := Collapse(text);
    if Units(t) <= limit {
      return t;
    }
    var truncated := Truncate(t, limit - 1);
    return Trim(truncated) + [ELLIPSIS];
  }

  /** No word is lost, and white space is left only as one space between two words. */
  predicate Tidy(s: string) {
    forall i :: 0 <= i < |s| && Space(s[i]) ==> s[i] == ' ' && 0 < i < |s| - 1 && !Space(s[i + 1])
  }

  function Letters(s: string): string {
    if s == "" then "" else (if Space(s[0]) then "" else [s[0]]) + Letters(s[1..])
  }

  lemma LettersCons(c: char, s: string)
    ensures Letters([c] + s) == (if Space(c) then "" else [c]) + Letters(s)
  {
    assert ([c] + s)[1..] == s;
  }

  /** White space may only be followed by a word. */
  predicate TidyAfter(s: string, gap: bool) {
    && (forall i :: 0 <= i < |s| && Space(s[i]) ==>
          s[i] == ' ' && i < |s| - 1 && !Space(s[i + 1]) && (i == 0 ==> gap))
    && (gap && s != "" ==> Space(s[0]))
  }

  lemma TidyCons(c: char, s: string)
    requires !Space(c) && (TidyAfter(s, true) || (TidyAfter(s, false) && (s == "" || !Space(s[0]))))
    ensures TidyAfter([c] + s, false)
  {
    var t := [c] + s;
    forall i | 0 <= i < |t| && Space(t[i]) ensures t[i] == ' ' && i < |t| - 1 && !Space(t[i + 1]) && i != 0 {
      assert t[i] == s[i - 1];
    }
  }

  lemma {:induction false} CollapsedIsTidy(s: string, gap: bool)
    ensures TidyAfter(Collapsed(s, gap), gap) && Letters(Collapsed(s, gap)) == Letters(s)
    decreases |s|, 1
  {
    if s != "" {
      if Space(s[0]) {
        CollapsedIsTidy(s[1..], gap);
      } else {
        WordIsTidy(s);
        if gap {
          LettersCons(' ', Word(s));
          var t := " " + Word(s);
          assert forall i :: 1 <= i < |t| ==> t[i] == Word(s)[i - 1];
        } else {
          assert "" + Word(s) == Word(s);
        }
      }
    }
  }

  lemma {:induction false} WordIsTidy(s: string)
    ensures if s != "" && Space(s[0]) then TidyAfter(Word(s), true) else TidyAfter(Word(s), false)
    ensures s != "" && !Space(s[0]) ==> Word(s) != "" && Word(s)[0] == s[0]
    ensures Letters(Word(s)) == Letters(s)
    decreases |s|, 0
  {
    if s != "" {
      if Space(s[0]) {
        CollapsedIsTidy(s[1..], true);
      } else {
        WordIsTidy(s[1..]);
        TidyCons(s[0], Word(s[1..]));
        LettersCons(s[0], Word(s[1..]));
      }
    }
  }

  lemma CollapseIsTidy(s: string)
    ensures Tidy(Collapse(s)) && Letters(Collapse(s)) == Letters(s)
  {
    CollapsedIsTidy(s, false);
  }

  // ---------------------------------------------------------------- what a field shows

  predicate Blank(s: string) { forall i :: 0 <= i < |s| ==> Space(s[i]) }

  /** The part from `i` to `j` begins and ends with a visible character, and only white space is around it. */
  ghost predicate Core(s: string, i: nat, j: nat) {
    && i <= j <= |s| && Blank(s[..i]) && Blank(s[j..])
    && (i < j ==> !Space(s[i]) && !Space(s[j - 1]))
  }

  lemma {:induction false} TrimLeftIsTail(s: string)
    ensures exists i: nat :: i <= |s| && TrimLeft(s) == s[i..] && Blank(s[..i])
    ensures TrimLeft(s) != "" ==> !Space(TrimLeft(s)[0])
  {
    if s == "" || !Space(s[0]) {
      assert s[0..] == s && Blank(s[..0]);
    } else {
      TrimLeftIsTail(s[1..]);
      var i: nat :| i <= |s[1..]| && TrimLeft(s[1..]) == s[1..][i..] && Blank(s[1..][..i]);
      assert s[1..][i..] == s[i + 1..];
      assert forall k :: 1 <= k < i + 1 ==> s[k] == s[1..][..i][k - 1];
      assert Blank(s[..i + 1]);
    }
  }

  lemma {:induction false} TrimRightIsHead(s: string)
    ensures exists j: nat :: j <= |s| && TrimRight(s) == s[..j] && Blank(s[j..]) && (j > 0 ==> !Space(s[j - 1]))
  {
    if s == "" || !Space(s[|s| - 1]) {
      assert s[..|s|] == s && Blank(s[|s|..]);
    } else {
      var init := s[..|s| - 1];
      TrimRightIsHead(init);
      var j: nat :| j <= |init| && TrimRight(init) == init[..j] && Blank(init[j..]) && (j > 0 ==> !Space(init[j - 1]));
      assert init[..j] == s[..j];
      assert forall k :: j <= k < |init| ==> s[k] == init[j..][k - j];
      assert Blank(s[j..]);
    }
  }

  lemma CoreOfTail(s: string, i: nat, j: nat)
    requires i <= i + j <= |s| && Blank(s[..i]) && Blank(s[i..][j..])
    requires j > 0 ==> !Space(s[i..][0]) && !Space(s[i..][j - 1])
    ensures Core(s, i, i + j) && s[i..][..j] == s[i..i + j]
  {
    assert s[i..][j..] == s[i + j..];
  }

  /** Trimming takes off exactly the white space at both ends. */
  lemma TrimIsCore(s: string)
    ensures exists i: nat, j: nat :: Core(s, i, j) && Trim(s) == s[i..j]
  {
    TrimLeftIsTail(s);
    var i: nat :| i <= |s| && TrimLeft(s) == s[i..] && Blank(s[..i]);
    TrimRightIsHead(s[i..]);
    var j: nat :| j <= |s[i..]| && TrimRight(s[i..]) == s[i..][..j] && Blank(s[i..][j..])
      && (j > 0 ==> !Space(s[i..][j - 1]));
    CoreOfTail(s, i, j);
  }

  /** The longest start of the text that fits. */
  ghost predicate Longest(t: string, n: nat, room: int) {
    n <= |t| && Units(t[..n]) <= room && (n < |t| ==> Units(t[..n + 1]) > room)
  }

  /** A text that fits is shown whole; a longer one as its longest start that leaves room for the ellipsis behind it. */
  lemma FieldShows(text: string, limit: nat)
    ensures Units(Collapse(text)) <= limit ==> Field(text, limit) == Collapse(text)
    ensures Units(Collapse(text)) > limit >= 1 ==>
      exists n: nat ::
        Longest(Collapse(text), n, limit - 1) && Field(text, limit) == Trim(Collapse(text)[..n]) + [ELLIPSIS]
  {
    var t := Collapse(text);
    if Units(t) > limit >= 1 {
      FitIsLongest(t, limit - 1);
      assert Longest(t, Fit(t, limit - 1), limit - 1);
    }
  }

  /** Lengths in UTF-16 and in UTF-8, code point by code point. */
  lemma LengthsFollowUnicode(c: char, s: string)
    ensures Units("") == Octets("") == 0
    ensures Units([c] + s) == (if c as int <= 0xFFFF then 1 else 2) + Units(s)
    ensures c as int <= 0x7F ==> Octets([c] + s) == 1 + Octets(s)
    ensures 0x80 <= c as int <= 0x7FF ==> Octets([c] + s) == 2 + Octets(s)
    ensures 0x800 <= c as int <= 0xFFFF ==> Octets([c] + s) == 3 + Octets(s)
    ensures 0x10000 <= c as int ==> Octets([c] + s) == 4 + Octets(s)
  {
    assert ([c] + s)[1..] == s;
  }

  /** White space of Unicode: the property White_Space. */
  lemma SpacesFollowUnicode(c: char)
    ensures Space(c) <==> c as int in {
      0x09, 0x0A, 0x0B, 0x0C, 0x0D, 0x20, 0x85, 0xA0, 0x1680, 0x2000, 0x2001, 0x2002, 0x2003, 0x2004, 0x2005, 0x2006,
      0x2007, 0x2008, 0x2009, 0x200A, 0x2028, 0x2029, 0x202F, 0x205F, 0x3000}
  {
  }

  /** A field is one line. */
  lemma FieldIsOneLine(text: string, limit: nat)
    ensures '\n' !in Field(text, limit)
  {
    var t := Collapse(text);
    CollapseIsTidy(text);
    assert '\n' !in t;
    if Units(t) > limit {
      var cut := t[..Fit(t, limit - 1)];
      TrimIsCore(cut);
      var i: nat, j: nat :| Core(cut, i, j) && Trim(cut) == cut[i..j];
      assert forall k :: 0 <= k < j - i ==> Trim(cut)[k] == t[i + k];
    }
  }
}
