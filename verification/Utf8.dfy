/**
 Bytes and well-formed UTF-8.
 */
module Utf8 {

  type Byte = x: int | 0 <= x < 256

  type Bytes = seq<Byte>

  predicate Continuation(b: Byte) { 0x80 <= b < 0xC0 }

  /** The byte can start a code point. */
  predicate RuneStart(b: Byte) { !Continuation(b) }

  /** Length of the code point a byte starts; 0 for a byte that starts none. */
  function Width(b: Byte): nat {
    if b < 0x80 then 1
    else if 0xC2 <= b < 0xE0 then 2
    else if 0xE0 <= b < 0xF0 then 3
    else if 0xF0 <= b < 0xF5 then 4
    else 0
  }

  /** What the first continuation byte must be: no overlong forms, no surrogates, nothing past U+10FFFF. */
  predicate SecondFits(lead: Byte, second: Byte) {
    && Continuation(second)
    && (lead == 0xE0 ==> second >= 0xA0) && (lead == 0xED ==> second < 0xA0)
    && (lead == 0xF0 ==> second >= 0x90) && (lead == 0xF4 ==> second < 0x90)
  }

  /** One whole code point at the front. */
  predicate StartsWithRune(s: Bytes) {
    && s != []
    && var n := Width(s[0]);
       && 0 < n <= |s| && (n > 1 ==> SecondFits(s[0], s[1])) && (forall i :: 1 <= i < n ==> Continuation(s[i]))
  }

  predicate Valid(s: Bytes)
    decreases |s|
  {
    s == [] || (StartsWithRune(s) && Valid(s[Width(s[0])..]))
  }

  lemma {:induction false} ValidConcat(a: Bytes, b: Bytes)
    requires Valid(a) && Valid(b)
    ensures Valid(a + b)
    decreases |a|
  {
    if a == [] {
      assert a + b == b;
    } else {
      var n := Width(a[0]);
      ValidConcat(a[n..], b);
      assert (a + b)[n..] == a[n..] + b;
    }
  }

  /** Cutting in front of a byte that starts a code point splits no code point. */
  lemma {:induction false} ValidSplit(s: Bytes, k: nat)
    requires Valid(s) && k <= |s| && (k < |s| ==> RuneStart(s[k]))
    ensures Valid(s[..k]) && Valid(s[k..])
    decreases |s|
  {
    if k == 0 {
      assert s[..0] == [] && s[0..] == s;
    } else {
      var n := Width(s[0]);
      assert n <= k;
      var rest := s[n..];
      if k < |s| {
        assert rest[k - n] == s[k];
      }
      ValidSplit(rest, k - n);
      assert rest[..k - n] == s[..k][n..];
      assert rest[k - n..] == s[k..];
      assert StartsWithRune(s[..k]);
    }
  }

  /** Code points are at most four bytes long. */
  lemma {:induction false} RuneStartNearby(s: Bytes, k: nat)
    requires Valid(s) && 3 <= k < |s|
    ensures RuneStart(s[k]) || RuneStart(s[k - 1]) || RuneStart(s[k - 2]) || RuneStart(s[k - 3])
    decreases |s|
  {
    var n := Width(s[0]);
    var rest := s[n..];
    if k < n {
      assert k == 3;
    } else if k - n >= 3 {
      RuneStartNearby(rest, k - n);
    } else {
      assert RuneStart(rest[0]);
      assert rest[0] == s[n];
    }
  }

  predicate Ascii(s: Bytes) { forall i :: 0 <= i < |s| ==> s[i] < 0x80 }

  lemma {:induction false} AsciiIsValid(s: Bytes)
    requires Ascii(s)
    ensures Valid(s)
    decreases |s|
  {
    if s != [] {
      AsciiIsValid(s[1..]);
    }
  }
}
