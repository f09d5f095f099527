/**
 The appointment file: escaped texts, folded lines, CRLF ends (RFC 5545).

 Reading it back as sections 3.1 and 3.3.11 of RFC 5545 say gives the lines and texts it was
 made of, and no line is longer than 75 octets or ends inside a code point.
 */
module IcsText {
  import opened Utf8

  const CR: Byte := 13
  const LF: Byte := 10
  const TAB: Byte := 9
  const SPACE: Byte := 32
  const BACKSLASH: Byte := 92
  const COMMA: Byte := 44
  const SEMICOLON: Byte := 59
  const SMALL_N: Byte := 110
  const CAPITAL_N: Byte := 78
  const MAX_LINE: nat := 75

  const CRLF: Bytes := [CR, LF]

  // ---------------------------------------------------------------- texts

  function Escape(s: Bytes): Bytes
    decreases |s|
  {
    if s == [] then []
    else if s[0] == BACKSLASH || s[0] == COMMA || s[0] == SEMICOLON then [BACKSLASH, s[0]] + Escape(s[1..])
    else if s[0] == CR && |s| > 1 && s[1] == LF then [BACKSLASH, SMALL_N] + Escape(s[2..])
    else if s[0] == CR || s[0] == LF then [BACKSLASH, SMALL_N] + Escape(s[1..])
    else [s[0]] + Escape(s[1..])
  }

  /** The text with every line ending written as LF. */
  function Normalised(s: Bytes): Bytes
    decreases |s|
  {
    if s == [] then []
    else if s[0] == CR && |s| > 1 && s[1] == LF then [LF] + Normalised(s[2..])
    else if s[0] == CR then [LF] + Normalised(s[1..])
    else [s[0]] + Normalised(s[1..])
  }

  /** Section 3.3.11 of RFC 5545. */
  function Unescape(s: Bytes): Bytes
    decreases |s|
  {
    if s == [] then []
    else if s[0] == BACKSLASH && |s| > 1 then
      [if s[1] == SMALL_N || s[1] == CAPITAL_N then LF else s[1]] + Unescape(s[2..])
    else [s[0]] + Unescape(s[1..])
  }

  predicate OneLine(s: Bytes) { CR !in s && LF !in s }

  lemma {:induction false} UnescapeEscape(s: Bytes)
    ensures Unescape(Escape(s)) == Normalised(s)
    decreases |s|
  {
    if s != [] {
      var rest := if s[0] == CR && |s| > 1 && s[1] == LF then s[2..] else s[1..];
      UnescapeEscape(rest);
      var e := Escape(s);
      if s[0] in {BACKSLASH, COMMA, SEMICOLON, CR, LF} {
        assert e[2..] == Escape(rest);
      } else {
        assert e[1..] == Escape(rest);
      }
    }
  }

  /** A text value of section 3.3.11 of RFC 5545: backslash, comma, semicolon and line ends are escaped. */
  predicate TextValue(s: Bytes)
    decreases |s|
  {
    if s == [] then true
    else if s[0] == 92 then |s| > 1 && s[1] in {92, 44, 59, 110} && TextValue(s[2..])
    else s[0] !in {44, 59, 13, 10} && TextValue(s[1..])
  }

  lemma {:induction false} EscapeIsTextValue(s: Bytes)
    ensures TextValue(Escape(s))
    decreases |s|
  {
    if s != [] {
      var rest := if s[0] == CR && |s| > 1 && s[1] == LF then s[2..] else s[1..];
      EscapeIsTextValue(rest);
      var e := Escape(s);
      if s[0] in {BACKSLASH, COMMA, SEMICOLON, CR, LF} {
        assert e[2..] == Escape(rest);
      } else {
        assert e[1..] == Escape(rest);
      }
    }
  }

  lemma {:induction false} EscapeIsOneLine(s: Bytes)
    ensures OneLine(Escape(s))
    decreases |s|
  {
    if s != [] {
      EscapeIsOneLine(if s[0] == CR && |s| > 1 && s[1] == LF then s[2..] else s[1..]);
    }
  }

  /** Escaping touches ASCII only. */
  lemma {:induction false} EscapeIsValid(s: Bytes)
    requires Valid(s)
    ensures Valid(Escape(s))
    decreases |s|
  {
    if s != [] {
      var n := Width(s[0]);
      if n == 1 {
        var rest := if s[0] == CR && |s| > 1 && s[1] == LF then s[2..] else s[1..];
        if |rest| < |s| - 1 {
          assert s[1..][1..] == rest;
        }
        EscapeIsValid(rest);
        var head := if s[0] in {BACKSLASH, COMMA, SEMICOLON} then [BACKSLASH, s[0]]
                    else if s[0] in {CR, LF} then [BACKSLASH, SMALL_N] else [s[0]];
        AsciiIsValid(head);
        ValidConcat(head, Escape(rest));
        assert Escape(s) == head + Escape(rest);
      } else {
        EscapeIsValid(s[n..]);
        EscapeKeeps(s, n);
        ValidSplit(s, n);
        ValidConcat(s[..n], Escape(s[n..]));
      }
    }
  }

  lemma {:induction false} EscapeKeeps(s: Bytes, n: nat)
    requires n <= |s| && forall i :: 0 <= i < n ==> s[i] >= 0x80
    ensures Escape(s) == s[..n] + Escape(s[n..])
    decreases n
  {
    if n > 0 {
      EscapeKeeps(s[1..], n - 1);
      assert s[1..][n - 1..] == s[n..];
      assert s[..n] == [s[0]] + s[1..][..n - 1];
    }
  }

  // ---------------------------------------------------------------- folding

  /** Where a line longer than 75 octets is cut: the last code point start at or before `k`. */
  function Cut(line: Bytes, k: nat): (c: nat)
    requires k < |line|
    ensures c <= k && (c > 0 ==> RuneStart(line[c]))
    ensures forall i :: c < i <= k ==> Continuation(line[i])
  {
    if k == 0 || RuneStart(line[k]) then k else Cut(line, k - 1)
  }

  /** The line that is left after one cut. */
  function Rest(line: Bytes): Bytes
    requires |line| > MAX_LINE
  {
    [SPACE] + line[Cut(line, MAX_LINE)..]
  }

  /** A cut makes the line shorter unless octets 3 to 76 are all continuation bytes. */
  lemma CutMakesProgress(line: Bytes)
    requires |line| > MAX_LINE
    ensures |Rest(line)| < |line| <==> exists i :: 2 <= i <= MAX_LINE && RuneStart(line[i])
  {
  }

  /** Then folding the rest of a line never ends: the cut gives the same line back. */
  lemma StuckFold(line: Bytes)
    requires |line| > MAX_LINE && line[0] == SPACE && RuneStart(line[1])
    requires forall i :: 2 <= i <= MAX_LINE ==> Continuation(line[i])
    ensures Rest(line) == line
  {
    assert Cut(line, MAX_LINE) == 1;
  }

  lemma ValidCut(line: Bytes)
    requires Valid(line) && |line| > MAX_LINE
    ensures
      var c := Cut(line, MAX_LINE);
      72 <= c && Valid(line[..c]) && Valid(Rest(line)) && |Rest(line)| < |line|
  {
    var c := Cut(line, MAX_LINE);
    RuneStartNearby(line, MAX_LINE);
    ValidSplit(line, c);
    AsciiIsValid([SPACE]);
    ValidConcat([SPACE], line[c..]);
  }

  /** The physical lines of one line. */
  function Fold(line: Bytes): (parts: seq<Bytes>)
    requires Valid(line)
    decreases |line|
  {
    if |line| <= MAX_LINE then [line]
    else
      ValidCut(line);
      [line[..Cut(line, MAX_LINE)]] + Fold(Rest(line))
  }

  function Written(parts: seq<Bytes>): Bytes {
    if parts == [] then [] else parts[0] + CRLF + Written(parts[1..])
  }

  ghost predicate AllValid(lines: seq<Bytes>) { forall i :: 0 <= i < |lines| ==> Valid(lines[i]) }

  ghost predicate AllOneLine(lines: seq<Bytes>) { forall i :: 0 <= i < |lines| ==> OneLine(lines[i]) }

  function FoldAll(lines: seq<Bytes>): seq<Bytes>
    requires AllValid(lines)
  {
    if lines == [] then [] else Fold(lines[0]) + FoldAll(lines[1..])
  }

  lemma {:induction false} WrittenConcat(a: seq<Bytes>, b: seq<Bytes>)
    ensures Written(a + b) == Written(a) + Written(b)
  {
    if a == [] {
      assert a + b == b;
    } else {
      WrittenConcat(a[1..], b);
      assert (a + b)[1..] == a[1..] + b;
    }
  }

  /** A physical line: at most 75 octets, whole code points, no line ending inside. */
  ghost predicate Physical(part: Bytes) { |part| <= MAX_LINE && Valid(part) && OneLine(part) }

  lemma {:induction false} FoldIsPhysical(line: Bytes)
    requires Valid(line) && OneLine(line)
    ensures forall i :: 0 <= i < |Fold(line)| ==> Physical(Fold(line)[i])
    decreases |line|
  {
    if |line| > MAX_LINE {
      ValidCut(line);
      FoldIsPhysical(Rest(line));
    }
  }

  lemma {:induction false} FoldAllIsPhysical(lines: seq<Bytes>)
    requires AllValid(lines) && AllOneLine(lines)
    ensures forall i :: 0 <= i < |FoldAll(lines)| ==> Physical(FoldAll(lines)[i])
  {
    if lines != [] {
      FoldIsPhysical(lines[0]);
      FoldAllIsPhysical(lines[1..]);
    }
  }

  // ---------------------------------------------------------------- reading it back

  predicate FoldHere(s: Bytes) { |s| >= 3 && s[0] == CR && s[1] == LF && (s[2] == SPACE || s[2] == TAB) }

  /** Section 3.1 of RFC 5545: a line ending followed by one space or tab is removed. */
  function Unfold(s: Bytes): Bytes
    decreases |s|
  {
    if s == [] then []
    else if FoldHere(s) then Unfold(s[3..])
    else [s[0]] + Unfold(s[1..])
  }

  predicate EndsHere(s: Bytes) { |s| >= 2 && s[0] == CR && s[1] == LF }

  /** The lines of a stream; the current one starts with `line`. */
  function Split(line: Bytes, s: Bytes): seq<Bytes>
    decreases |s|
  {
    if s == [] then (if line == [] then [] else [line])
    else if EndsHere(s) then [line] + Split([], s[2..])
    else Split(line + [s[0]], s[1..])
  }

  lemma {:induction false} SplitLine(line: Bytes, p: Bytes, s: Bytes)
    requires CR !in p
    ensures Split(line, p + CRLF + s) == [line + p] + Split([], s)
    decreases |p|
  {
    var whole := p + CRLF + s;
    if p == [] {
      assert whole[2..] == s && line + p == line;
    } else {
      assert whole[1..] == p[1..] + CRLF + s;
      SplitLine(line + [p[0]], p[1..], s);
      assert line + [p[0]] + p[1..] == line + p;
    }
  }

  lemma {:induction false} SplitWritten(parts: seq<Bytes>)
    requires AllOneLine(parts)
    ensures Split([], Written(parts)) == parts
  {
    if parts != [] {
      SplitLine([], parts[0], Written(parts[1..]));
      SplitWritten(parts[1..]);
      assert [] + parts[0] == parts[0];
    }
  }

  lemma {:induction false} UnfoldLine(p: Bytes, s: Bytes)
    requires CR !in p
    ensures Unfold(p + s) == p + Unfold(s)
    decreases |p|
  {
    if p == [] {
      assert p + s == s;
    } else {
      assert (p + s)[1..] == p[1..] + s;
      UnfoldLine(p[1..], s);
    }
  }

  /** What follows a line ending does not continue the line. */
  predicate StartsAfresh(s: Bytes) { s == [] || (s[0] != SPACE && s[0] != TAB) }

  lemma UnfoldEnd(s: Bytes)
    requires StartsAfresh(s)
    ensures Unfold(CRLF + s) == CRLF + Unfold(s)
  {
    var whole := CRLF + s;
    assert whole[1..] == [LF] + s;
    assert ([LF] + s)[1..] == s;
  }

  lemma UnfoldJoint(s: Bytes)
    requires s != [] && s[0] == SPACE
    ensures [SPACE] + Unfold(CRLF + s) == Unfold(s)
  {
    var whole := CRLF + s;
    assert whole[3..] == s[1..];
  }

  lemma {:induction false} FoldStartsLikeLine(line: Bytes)
    requires Valid(line) && line != []
    ensures Fold(line) != [] && Fold(line)[0] != [] && Fold(line)[0][0] == line[0]
  {
    if |line| > MAX_LINE {
      ValidCut(line);
    }
  }

  lemma UnfoldCut(head: Bytes, tail: Bytes, more: Bytes)
    requires CR !in head && tail != [] && tail[0] == SPACE && Unfold(tail) == [SPACE] + more
    ensures Unfold(head + (CRLF + tail)) == head + more
  {
    UnfoldLine(head, CRLF + tail);
    UnfoldJoint(tail);
    assert Unfold(tail)[1..] == more && ([SPACE] + Unfold(CRLF + tail))[1..] == Unfold(CRLF + tail);
  }

  lemma WrittenCut(head: Bytes, parts: seq<Bytes>, s: Bytes)
    ensures Written([head] + parts) + s == head + (CRLF + (Written(parts) + s))
  {
    assert ([head] + parts)[1..] == parts;
  }

  lemma UnfoldShort(line: Bytes, s: Bytes)
    requires OneLine(line) && StartsAfresh(s)
    ensures Unfold(Written([line]) + s) == line + CRLF + Unfold(s)
  {
    WrittenCut(line, [], s);
    UnfoldLine(line, CRLF + s);
    UnfoldEnd(s);
    assert [line] + [] == [line] && Written([]) + s == s;
  }

  lemma UnfoldLong(line: Bytes, c: nat, tail: Bytes, u: Bytes)
    requires OneLine(line) && c <= |line| && tail != [] && tail[0] == SPACE
    requires Unfold(tail) == [SPACE] + line[c..] + CRLF + u
    ensures Unfold(line[..c] + (CRLF + tail)) == line + CRLF + u
  {
    var more := line[c..] + CRLF + u;
    assert [SPACE] + line[c..] + CRLF + u == [SPACE] + more;
    UnfoldCut(line[..c], tail, more);
    assert line[..c] + more == line + CRLF + u;
  }

  lemma WrittenStartsLike(parts: seq<Bytes>, s: Bytes)
    requires parts != [] && parts[0] != []
    ensures Written(parts) + s != [] && (Written(parts) + s)[0] == parts[0][0]
  {
  }

  lemma {:induction false} UnfoldFold(line: Bytes, s: Bytes)
    requires Valid(line) && OneLine(line) && StartsAfresh(s)
    ensures Unfold(Written(Fold(line)) + s) == line + CRLF + Unfold(s)
    decreases |line|
  {
    if |line| <= MAX_LINE {
      UnfoldShort(line, s);
    } else {
      ValidCut(line);
      var c := Cut(line, MAX_LINE);
      var parts := Fold(Rest(line));
      UnfoldFold(Rest(line), s);
      FoldStartsLikeLine(Rest(line));
      WrittenStartsLike(parts, s);
      UnfoldLong(line, c, Written(parts) + s, Unfold(s));
      WrittenCut(line[..c], parts, s);
    }
  }

  /** Every line begins with its property name. */
  ghost predicate AllStartAfresh(lines: seq<Bytes>) {
    forall i :: 0 <= i < |lines| ==> lines[i] != [] && lines[i][0] != SPACE && lines[i][0] != TAB
  }

  lemma {:induction false} UnfoldAll(lines: seq<Bytes>)
    requires AllValid(lines) && AllOneLine(lines) && AllStartAfresh(lines)
    ensures Unfold(Written(FoldAll(lines))) == Written(lines)
  {
    if lines != [] {
      var rest := Written(FoldAll(lines[1..]));
      UnfoldAll(lines[1..]);
      if |lines| > 1 {
        FoldStartsLikeLine(lines[1]);
      }
      WrittenConcat(Fold(lines[0]), FoldAll(lines[1..]));
      UnfoldFold(lines[0], rest);
    }
  }

  // ---------------------------------------------------------------- when the folding loop ends

  /** The loop over one line is done after at most `n` cuts. */
  predicate EndsWithin(line: Bytes, n: nat)
    decreases n
  {
    |line| <= MAX_LINE || (n > 0 && EndsWithin(Rest(line), n - 1))
  }

  ghost predicate Ends(line: Bytes) { exists n: nat :: EndsWithin(line, n) }

  /** More continuation bytes in a row than any cut can pass. */
  const RUN: nat := 74

  predicate RunAt(s: Bytes, k: nat) { k + RUN <= |s| && forall i :: k <= i < k + RUN ==> Continuation(s[i]) }

  ghost predicate LongRun(s: Bytes) { exists k: nat :: RunAt(s, k) }

  /** As every line does: the first by its name, the rest by a space and a code point start. */
  predicate TwoStarts(line: Bytes) { |line| >= 2 && RuneStart(line[0]) && RuneStart(line[1]) }

  lemma RestKeepsRun(line: Bytes, k: nat)
    requires TwoStarts(line) && RunAt(line, k)
    ensures |line| > MAX_LINE && TwoStarts(Rest(line)) && RunAt(Rest(line), k - Cut(line, MAX_LINE) + 1)
  {
    assert k >= 2 by {
      assert Continuation(line[k]);
    }
    var c := Cut(line, MAX_LINE);
    assert c >= 1;
    assert c < k || c >= k + RUN;
    assert forall i :: 1 <= i < |Rest(line)| ==> Rest(line)[i] == line[i - 1 + c];
  }

  lemma {:induction false} RunNeverEnds(line: Bytes, k: nat, n: nat)
    requires TwoStarts(line) && RunAt(line, k)
    ensures !EndsWithin(line, n)
    decreases n
  {
    RestKeepsRun(line, k);
    if n > 0 {
      RunNeverEnds(Rest(line), k - Cut(line, MAX_LINE) + 1, n - 1);
    }
  }

  lemma RestAddsNoRun(line: Bytes, k: nat)
    requires TwoStarts(line) && |line| > MAX_LINE && RunAt(Rest(line), k)
    ensures RunAt(line, k - 1 + Cut(line, MAX_LINE))
  {
    var c := Cut(line, MAX_LINE);
    assert c >= 1 && RuneStart(Rest(line)[0]) && RuneStart(Rest(line)[1]);
    assert k >= 2 by {
      assert Continuation(Rest(line)[k]);
    }
    assert forall i :: c <= i < |line| ==> line[i] == Rest(line)[i + 1 - c];
  }

  lemma {:induction false} NoRunEnds(line: Bytes)
    requires TwoStarts(line) && !LongRun(line)
    ensures EndsWithin(line, |line|)
    decreases |line|
  {
    if |line| > MAX_LINE {
      if forall i :: 2 <= i <= MAX_LINE ==> Continuation(line[i]) {
        assert RunAt(line, 2);
        assert false;
      }
      CutMakesProgress(line);
      assert !LongRun(Rest(line)) by {
        if LongRun(Rest(line)) {
          var k: nat :| RunAt(Rest(line), k);
          RestAddsNoRun(line, k);
        }
      }
      NoRunEnds(Rest(line));
      EndsLater(Rest(line), |Rest(line)|, |line| - 1);
    }
  }

  lemma {:induction false} EndsLater(line: Bytes, n: nat, m: nat)
    requires EndsWithin(line, n) && n <= m
    ensures EndsWithin(line, m)
    decreases n
  {
    if |line| > MAX_LINE {
      EndsLater(Rest(line), n - 1, m - 1);
    }
  }

  /** The loop ends exactly for the lines without 74 continuation bytes in a row. */
  lemma LoopEndsExactly(line: Bytes)
    requires TwoStarts(line)
    ensures Ends(line) <==> !LongRun(line)
  {
    if LongRun(line) {
      var k: nat :| RunAt(line, k);
      forall n: nat ensures !EndsWithin(line, n) {
        RunNeverEnds(line, k, n);
      }
    } else {
      NoRunEnds(line);
    }
  }

  /** The line after `n` cuts. */
  function After(line: Bytes, n: nat): Bytes
    decreases n
  {
    if n == 0 || |line| <= MAX_LINE then line else After(Rest(line), n - 1)
  }

  predicate Stuck(line: Bytes) {
    && |line| > MAX_LINE && line[0] == SPACE && RuneStart(line[1])
    && forall i :: 2 <= i <= MAX_LINE ==> Continuation(line[i])
  }

  /** For the others it comes to a line that the next cut gives back unchanged. */
  lemma {:induction false} LongRunGetsStuck(line: Bytes, k: nat)
    requires TwoStarts(line) && RunAt(line, k)
    ensures exists n: nat :: Stuck(After(line, n)) && Rest(After(line, n)) == After(line, n)
    decreases |line|
  {
    RestKeepsRun(line, k);
    var c := Cut(line, MAX_LINE);
    if c == 1 {
      assert Stuck(Rest(line)) by {
        assert forall i :: 1 <= i < |Rest(line)| ==> Rest(line)[i] == line[i];
      }
      StuckFold(Rest(line));
      assert After(line, 1) == Rest(line);
    } else {
      LongRunGetsStuck(Rest(line), k - c + 1);
      var n: nat :| Stuck(After(Rest(line), n)) && Rest(After(Rest(line), n)) == After(Rest(line), n);
      assert After(line, n + 1) == After(Rest(line), n);
    }
  }

  // Escaping neither makes nor breaks such a run.

  lemma {:induction false} EscapeLeads(s: Bytes, n: nat)
    requires n <= |Escape(s)| && forall i :: 0 <= i < n ==> Continuation(Escape(s)[i])
    ensures n <= |s| && forall i :: 0 <= i < n ==> Continuation(s[i])
    decreases n
  {
    if n > 0 {
      assert Continuation(Escape(s)[0]);
      assert Escape(s) == [s[0]] + Escape(s[1..]);
      assert forall i :: 0 <= i < n - 1 ==> Escape(s[1..])[i] == Escape(s)[i + 1];
      EscapeLeads(s[1..], n - 1);
    }
  }

  /** The escaped form of the first character, and what is left to escape. */
  lemma EscapeHead(s: Bytes)
    requires s != []
    ensures
      var rest := if s[0] == CR && |s| > 1 && s[1] == LF then s[2..] else s[1..];
      && Escape(rest) == Escape(s)[|Escape(s)| - |Escape(rest)|..]
      && (forall i :: 0 <= i < |Escape(s)| - |Escape(rest)| && Continuation(Escape(s)[i]) ==>
            i == 0 && s[0] == Escape(s)[0] && |Escape(s)| == |Escape(rest)| + 1)
  {
  }

  lemma {:induction false} EscapeAddsNoRun(s: Bytes, k: nat)
    requires RunAt(Escape(s), k)
    ensures LongRun(s)
    decreases |s|
  {
    var rest := if s[0] == CR && |s| > 1 && s[1] == LF then s[2..] else s[1..];
    EscapeHead(s);
    var h := |Escape(s)| - |Escape(rest)|;
    if k == 0 {
      EscapeLeads(s, RUN);
      assert RunAt(s, 0);
    } else {
      assert Continuation(Escape(s)[k]);
      assert k >= h;
      assert RunAt(Escape(rest), k - h) by {
        assert forall i :: 0 <= i < |Escape(rest)| ==> Escape(rest)[i] == Escape(s)[h + i];
      }
      EscapeAddsNoRun(rest, k - h);
      var j: nat :| RunAt(rest, j);
      assert RunAt(s, j + |s| - |rest|);
    }
  }

  lemma RunMovesBack(s: Bytes, rest: Bytes, j: nat)
    requires |rest| <= |s| && rest == s[|s| - |rest|..] && RunAt(rest, j)
    ensures RunAt(s, |s| - |rest| + j)
  {
    var h := |s| - |rest|;
    forall i | h + j <= i < h + j + RUN ensures Continuation(s[i]) {
      assert rest[i - h] == s[i];
    }
  }

  lemma {:induction false} EscapeKeepsRun(s: Bytes, k: nat)
    requires RunAt(s, k)
    ensures LongRun(Escape(s))
    decreases |s|
  {
    if k == 0 {
      EscapeKeeps(s, RUN);
      assert RunAt(Escape(s), 0);
    } else {
      assert Continuation(s[k]);
      var rest := if s[0] == CR && |s| > 1 && s[1] == LF then s[2..] else s[1..];
      EscapeHead(s);
      assert RunAt(rest, k - (|s| - |rest|));
      EscapeKeepsRun(rest, k - (|s| - |rest|));
      var j: nat :| RunAt(Escape(rest), j);
      RunMovesBack(Escape(s), Escape(rest), j);
    }
  }

  lemma EscapeKeepsLongRuns(s: Bytes)
    ensures LongRun(Escape(s)) <==> LongRun(s)
  {
    if LongRun(s) {
      var k: nat :| RunAt(s, k);
      EscapeKeepsRun(s, k);
    }
    if LongRun(Escape(s)) {
      var k: nat :| RunAt(Escape(s), k);
      EscapeAddsNoRun(s, k);
    }
  }
}
