/**
 Splitting a long message into provider-sized chunks, at line ends where there is one.
 */
module TextChunks {

  /** A text of newlines only. */
  predicate Blank(s: string) { forall i :: 0 <= i < |s| ==> s[i] == '\n' }

  /** How many newlines the text starts with. */
  function Lead(s: string): (n: nat)
    ensures n <= |s| && (n < |s| ==> s[n] != '\n')
    ensures forall i :: 0 <= i < n ==> s[i] == '\n'
  {
    if s == "" || s[0] != '\n' then 0 else Lead(s[1..]) + 1
  }

  function Trimmed(s: string): string { s[Lead(s)..] }

  /** The last newline in the second half of the first `limit` runes, or the limit. */
  function EndFrom(text: string, limit: nat, i: nat): (end: nat)
    requires limit / 2 <= i < limit < |text|
    ensures limit / 2 < end <= i || end == limit
    ensures end < limit ==> text[end] == '\n'
    ensures forall j :: (if end == limit then limit / 2 else end) < j <= i ==> text[j] != '\n'
    decreases i
  {
    if i <= limit / 2 then limit else if text[i] == '\n' then i else EndFrom(text, limit, i - 1)
  }

  /** Where the first chunk of a text that is too long ends. */
  function End(text: string, limit: nat): (end: nat)
    requires 0 < limit < |text|
    ensures 0 < end <= limit
  {
    EndFrom(text, limit, limit - 1)
  }

  function Head(text: string, limit: nat): (chunk: string)
    requires 0 < limit < |text|
    ensures 0 < |chunk| <= limit
  {
    text[..End(text, limit)]
  }

  /** What is left for the next chunks. */
  function Rest(text: string, limit: nat): (rest: string)
    requires 0 < limit < |text|
    ensures |rest| < |text|
  {
    Trimmed(text[End(text, limit)..])
  }

  function Gap(text: string, limit: nat): (gap: string)
    requires 0 < limit < |text|
    ensures Blank(gap)
    ensures Head(text, limit) + gap + Rest(text, limit) == text
  {
    var end := End(text, limit);
    text[end..][..Lead(text[end..])]
  }

  function Chunks(text: string, limit: nat): seq<string>
    requires limit > 0
    decreases |text|
  {
    if |text| <= limit then (if text == "" then [] else [text])
    else [Head(text, limit)] + Chunks(Rest(text, limit), limit)
  }

  method FindEnd(text: string, limit: nat) returns (end: nat)
    requires 0 < limit < |text|
    ensures end == End(text, limit)
  {
    var i := limit - 1;
    while i > limit / 2
      invariant limit / 2 <= i < limit
      invariant End(text, limit) == EndFrom(text, limit, i)
    {
      if text[i] == '\n' {
        return i;
      }
      i := i - 1;
    }
    return limit;
  }

  method CutOff(text: string, limit: nat) returns (chunk: string, rest: string)
    requires 0 < limit < |text|
    ensures chunk == Head(text, limit) && rest == Rest(text, limit)
  {
    var end := FindEnd(text, limit);
    chunk, rest := text[..end], Trimmed(text[end..]);
  }

  method Split(given: string, limit: nat) returns (chunks: seq<string>)
    requires limit > 0
    ensures chunks == Chunks(given, limit)
  {
    var text := given;
    chunks := [];
    while |text| > limit
      invariant chunks + Chunks(text, limit) == Chunks(given, limit)
      decreases |text|
    {
      OneChunk(chunks, text, limit);
      var chunk, rest := CutOff(text, limit);
      chunks := chunks + [chunk];
      text := rest;
    }
    if text != "" {
      chunks := chunks + [text];
    }
  }

  lemma OneChunk(chunks: seq<string>, text: string, limit: nat)
    requires 0 < limit < |text|
    ensures chunks + Chunks(text, limit) == chunks + [Head(text, limit)] + Chunks(Rest(text, limit), limit)
  {
  }

  // ---------------------------------------------------------------- what the chunks are

  ghost predicate Sized(chunks: seq<string>, limit: nat) {
    forall i :: 0 <= i < |chunks| ==> 0 < |chunks[i]| <= limit
  }

  lemma {:induction false} ChunksAreSized(text: string, limit: nat)
    requires limit > 0
    ensures Sized(Chunks(text, limit), limit)
    decreases |text|
  {
    if |text| > limit {
      ChunksAreSized(Rest(text, limit), limit);
    }
  }

  /** The chunks, each followed by its gap. */
  function Joined(chunks: seq<string>, gaps: seq<string>): string
    requires |gaps| == |chunks|
  {
    if chunks == [] then "" else chunks[0] + gaps[0] + Joined(chunks[1..], gaps[1..])
  }

  /** What was trimmed behind each chunk. */
  function Gaps(text: string, limit: nat): (gaps: seq<string>)
    requires limit > 0
    ensures |gaps| == |Chunks(text, limit)|
    decreases |text|
  {
    if |text| <= limit then (if text == "" then [] else [""])
    else [Gap(text, limit)] + Gaps(Rest(text, limit), limit)
  }

  lemma JoinedCons(chunk: string, gap: string, chunks: seq<string>, gaps: seq<string>)
    requires |gaps| == |chunks|
    ensures Joined([chunk] + chunks, [gap] + gaps) == chunk + gap + Joined(chunks, gaps)
  {
    assert ([chunk] + chunks)[1..] == chunks && ([gap] + gaps)[1..] == gaps;
  }

  lemma {:induction false} OnlyNewlinesAreLost(text: string, limit: nat)
    requires limit > 0
    ensures Joined(Chunks(text, limit), Gaps(text, limit)) == text
    ensures forall i :: 0 <= i < |Gaps(text, limit)| ==> Blank(Gaps(text, limit)[i])
    decreases |text|
  {
    if |text| > limit {
      OnlyNewlinesAreLost(Rest(text, limit), limit);
      JoinedCons(Head(text, limit), Gap(text, limit), Chunks(Rest(text, limit), limit), Gaps(Rest(text, limit), limit));
    } else if text != "" {
      JoinedCons(text, "", [], []);
    }
  }

  /** A chunk in the middle fills the limit or ends at a line end. */
  lemma CutAtLineEnd(text: string, limit: nat)
    requires 0 < limit < |text|
    ensures
      var end := End(text, limit);
      if end == limit then forall j :: limit / 2 < j < limit ==> text[j] != '\n'
      else limit / 2 < end && text[end] == '\n' && forall j :: end < j < limit ==> text[j] != '\n'
  {
  }

  function Visible(s: string): string {
    if s == "" then "" else (if s[0] == '\n' then "" else [s[0]]) + Visible(s[1..])
  }

  function Flat(chunks: seq<string>): string { if chunks == [] then "" else chunks[0] + Flat(chunks[1..]) }

  lemma VisibleCons(c: char, s: string)
    ensures Visible([c] + s) == (if c == '\n' then "" else [c]) + Visible(s)
  {
    assert ([c] + s)[1..] == s;
  }

  lemma {:induction false} VisibleConcat(a: string, b: string)
    ensures Visible(a + b) == Visible(a) + Visible(b)
  {
    if a == "" {
      assert a + b == b;
    } else {
      VisibleConcat(a[1..], b);
      VisibleCons(a[0], a[1..] + b);
      VisibleCons(a[0], a[1..]);
      assert a + b == [a[0]] + (a[1..] + b) && a == [a[0]] + a[1..];
    }
  }

  lemma {:induction false} BlankIsInvisible(s: string)
    requires Blank(s)
    ensures Visible(s) == ""
  {
    if s != "" {
      BlankIsInvisible(s[1..]);
    }
  }

  lemma {:induction false} JoinedVisible(chunks: seq<string>, gaps: seq<string>)
    requires |gaps| == |chunks| && forall i :: 0 <= i < |gaps| ==> Blank(gaps[i])
    ensures Visible(Joined(chunks, gaps)) == Visible(Flat(chunks))
  {
    if chunks != [] {
      JoinedVisible(chunks[1..], gaps[1..]);
      BlankIsInvisible(gaps[0]);
      VisibleConcat(chunks[0] + gaps[0], Joined(chunks[1..], gaps[1..]));
      VisibleConcat(chunks[0], gaps[0]);
      VisibleConcat(chunks[0], Flat(chunks[1..]));
    }
  }

  /** Everything but newlines arrives, in order. */
  lemma EverythingVisibleArrives(text: string, limit: nat)
    requires limit > 0
    ensures Visible(Flat(Chunks(text, limit))) == Visible(text)
  {
    OnlyNewlinesAreLost(text, limit);
    JoinedVisible(Chunks(text, limit), Gaps(text, limit));
  }
}
