/**
 Button payloads: a token and the whole label in unpadded base64url (RFC 4648, sections 3.2
 and 5), and what the webhook makes of a payload that comes back.
 */
module ChoicePayload {
  import opened Options
  import opened Utf8

  const COLON: Byte := 58
  const SMALL_C: Byte := 99
  const CR: Byte := 13
  const LF: Byte := 10
  const MAX_PAYLOAD: nat := 1000

  type Sextet = x: int | 0 <= x < 64

  function Letter(v: Sextet): Byte {
    if v < 26 then 65 + v else if v < 52 then 71 + v else if v < 62 then v - 4 else if v == 62 then 45 else 95
  }

  function ValueOf(b: Byte): Option<Sextet> {
    if 65 <= b <= 90 then Some(b - 65)
    else if 97 <= b <= 122 then Some(b - 71)
    else if 48 <= b <= 57 then Some(b + 4)
    else if b == 45 then Some(62)
    else if b == 95 then Some(63)
    else None
  }

  /** One, two or three bytes as two, three or four sextets. */
  function Group(s: Bytes): (v: seq<Sextet>)
    requires 1 <= |s| <= 3
    ensures |v| == |s| + 1
  {
    var a: int, b: int, c: int := s[0], if |s| > 1 then s[1] else 0, if |s| > 2 then s[2] else 0;
    [a / 4, a % 4 * 16 + b / 16, b % 16 * 4 + c / 64, c % 64][..|s| + 1]
  }

  function Sextets(s: Bytes): seq<Sextet>
    decreases |s|
  {
    if s == [] then [] else if |s| <= 3 then Group(s) else Group(s[..3]) + Sextets(s[3..])
  }

  function Letters(v: seq<Sextet>): Bytes {
    if v == [] then [] else [Letter(v[0])] + Letters(v[1..])
  }

  function Encode(text: Bytes): Bytes { Letters(Sextets(text)) }

  /** Line breaks are skipped; any other foreign byte is an error. */
  function Values(s: Bytes): Option<seq<Sextet>> {
    if s == [] then Some([])
    else match Values(s[1..])
      case None => None
      case Some(rest) =>
        if s[0] == CR || s[0] == LF then Some(rest)
        else if ValueOf(s[0]) == None then None
        else Some([ValueOf(s[0]).value] + rest)
  }

  function Ungroup(v: seq<Sextet>): (s: Bytes)
    requires 2 <= |v| <= 4
    ensures |s| == |v| - 1
  {
    var a: int, b: int := v[0], v[1];
    var c: int, d: int := if |v| > 2 then v[2] else 0, if |v| > 3 then v[3] else 0;
    [a * 4 + b / 16, b % 16 * 16 + c / 4, c % 4 * 64 + d][..|v| - 1]
  }

  /** The bits left over in the last group are not looked at; a group of one is an error. */
  function Bits(v: seq<Sextet>): Option<Bytes>
    decreases |v|
  {
    if v == [] then Some([])
    else if |v| == 1 then None
    else if |v| <= 4 then Some(Ungroup(v))
    else match Bits(v[4..])
      case None => None
      case Some(rest) => Some(Ungroup(v[..4]) + rest)
  }

  function Decode(s: Bytes): Option<Bytes> {
    match Values(s)
    case None => None
    case Some(v) => Bits(v)
  }

  function Payload(token: Bytes, text: Bytes): Bytes { [SMALL_C, COLON] + token + [COLON] + Encode(text) }

  /** The first colon, or the length. */
  function Colon(s: Bytes): (i: nat)
    ensures i <= |s| && (i < |s| ==> s[i] == COLON) && forall k :: 0 <= k < i ==> s[k] != COLON
  {
    if s == [] then 0 else if s[0] == COLON then 0 else Colon(s[1..]) + 1
  }

  datatype Choice = Choice(token: Bytes, text: Bytes)

  /** "invalid" and "Expired choice". */
  const EXPIRED: Choice := Choice(
    [105, 110, 118, 97, 108, 105, 100],
    [69, 120, 112, 105, 114, 101, 100, 32, 99, 104, 111, 105, 99, 101])

  function DecodeChoice(payload: Bytes): Choice {
    var i := Colon(payload);
    if i == |payload| || payload[..i] != [SMALL_C] then EXPIRED
    else
      var rest := payload[i + 1..];
      var j := Colon(rest);
      if j == |rest| || j == 0 || |payload| > MAX_PAYLOAD then EXPIRED
      else
        var text := Decode(rest[j + 1..]);
        if text == None || !Valid(text.value) || text.value == [] then EXPIRED
        else Choice(rest[..j], text.value)
  }

  /** Table 2 of RFC 4648: four runs of consecutive letters, then "-" and "_". */
  lemma LettersFollowTable(v: Sextet)
    ensures v < 26 ==> Letter(v) == 'A' as int + v
    ensures 26 <= v < 52 ==> Letter(v) == 'a' as int + (v - 26)
    ensures 52 <= v < 62 ==> Letter(v) == '0' as int + (v - 52)
    ensures v == 62 ==> Letter(v) == '-' as int
    ensures v == 63 ==> Letter(v) == '_' as int
  {
  }

  /** The 24 bits of a full group are the 24 bits of its letters, most significant first. */
  lemma GroupKeepsBits(a: Byte, b: Byte, c: Byte)
    ensures
      var v: seq<int> := Group([a, b, c]);
      v[0] * 262144 + v[1] * 4096 + v[2] * 64 + v[3] == a * 65536 + b * 256 + c
  {
  }

  /** The bits that a short last group leaves over are zero (section 3.5 of RFC 4648). */
  lemma ShortGroupsPadWithZeros(a: Byte, b: Byte)
    ensures
      var one: seq<int>, two: seq<int> := Group([a]), Group([a, b]);
      && one[0] * 64 + one[1] == a * 16
      && two[0] * 4096 + two[1] * 64 + two[2] == (a * 256 + b) * 4
  {
  }

  /** Only the letters of the table have a value. */
  lemma ValuesFollowTable(b: Byte)
    ensures ValueOf(b).Some? ==> Letter(ValueOf(b).value) == b
    ensures ValueOf(b) == None ==> forall v: Sextet :: Letter(v) != b
  {
  }

  /** Carriage returns and line feeds are passed over, any other foreign byte spoils the text. */
  lemma OnlyLineBreaksArePassedOver(b: Byte, s: Bytes)
    ensures b == 13 || b == 10 ==> Values([b] + s) == Values(s)
    ensures b != 13 && b != 10 && ValueOf(b) == None ==> Values([b] + s) == None
  {
    assert ([b] + s)[1..] == s;
  }

  lemma LetterValue(v: Sextet)
    ensures ValueOf(Letter(v)) == Some(v) && Letter(v) != CR && Letter(v) != LF && Letter(v) != COLON
  {
  }

  lemma {:induction false} ValuesOfLetters(v: seq<Sextet>)
    ensures Values(Letters(v)) == Some(v) && COLON !in Letters(v)
  {
    if v != [] {
      ValuesOfLetters(v[1..]);
      LetterValue(v[0]);
      assert Letters(v)[0] == Letter(v[0]);
      assert v == [v[0]] + v[1..];
      assert Letters(v)[1..] == Letters(v[1..]);
    }
  }

  lemma DigitsOfBytes(a: int, b: int, c: int)
    requires 0 <= a < 256 && 0 <= b < 256 && 0 <= c < 256
    ensures a / 4 * 4 + (a % 4 * 16 + b / 16) / 16 == a
    ensures (a % 4 * 16 + b / 16) % 16 * 16 + (b % 16 * 4 + c / 64) / 4 == b
    ensures (b % 16 * 4 + c / 64) % 4 * 64 + c % 64 == c
  {
  }

  lemma GroupComesBack(s: Bytes)
    requires 1 <= |s| <= 3
    ensures Ungroup(Group(s)) == s
  {
    DigitsOfBytes(s[0] as int, if |s| > 1 then s[1] as int else 0, if |s| > 2 then s[2] as int else 0);
  }

  lemma {:induction false} BitsOfSextets(s: Bytes)
    ensures Bits(Sextets(s)) == Some(s)
    decreases |s|
  {
    if 1 <= |s| <= 3 {
      GroupComesBack(s);
    } else if s != [] {
      BitsOfSextets(s[3..]);
      GroupComesBack(s[..3]);
      assert s == s[..3] + s[3..];
      assert Sextets(s)[..4] == Group(s[..3]) && Sextets(s)[4..] == Sextets(s[3..]);
    }
  }

  lemma DecodeEncode(text: Bytes)
    ensures Decode(Encode(text)) == Some(text) && COLON !in Encode(text)
  {
    ValuesOfLetters(Sextets(text));
    BitsOfSextets(text);
  }

  /** Four letters for three bytes, and no padding. */
  lemma {:induction false} EncodedLength(text: Bytes)
    ensures |Encode(text)| == (4 * |text| + 2) / 3
    decreases |text|
  {
    LettersLength(Sextets(text));
    if |text| >= 3 {
      EncodedLength(text[3..]);
      LettersLength(Sextets(text[3..]));
    }
  }

  lemma {:induction false} LettersLength(v: seq<Sextet>)
    ensures |Letters(v)| == |v|
  {
    if v != [] {
      LettersLength(v[1..]);
    }
  }

  lemma ColonAt(p: Bytes, s: Bytes)
    requires COLON !in p
    ensures Colon(p + [COLON] + s) == |p|
  {
    var whole := p + [COLON] + s;
    assert whole[|p|] == COLON;
    assert forall k :: 0 <= k < |p| ==> whole[k] == p[k];
  }

  /** What a choice must be to come back. */
  predicate Sendable(token: Bytes, text: Bytes) {
    token != [] && COLON !in token && text != [] && Valid(text) && |Payload(token, text)| <= MAX_PAYLOAD
  }

  lemma SplitPayload(token: Bytes, text: Bytes)
    ensures Colon(Payload(token, text)) == 1
    ensures Payload(token, text)[..1] == [SMALL_C]
    ensures Payload(token, text)[2..] == token + [COLON] + Encode(text)
  {
    assert Payload(token, text) == [SMALL_C] + [COLON] + (token + [COLON] + Encode(text));
    ColonAt([SMALL_C], token + [COLON] + Encode(text));
  }

  lemma SendableComesBack(token: Bytes, text: Bytes)
    requires COLON !in token
    ensures
      DecodeChoice(Payload(token, text)) == if Sendable(token, text) then Choice(token, text) else EXPIRED
  {
    SplitPayload(token, text);
    ColonAt(token, Encode(text));
    DecodeEncode(text);
    var rest := token + [COLON] + Encode(text);
    assert rest[..|token|] == token && rest[|token| + 1..] == Encode(text);
  }

  lemma {:induction false} ForeignByte(s: Bytes)
    requires COLON in s
    ensures Values(s) == None
  {
    if s[0] != COLON {
      assert s == [s[0]] + s[1..];
      ForeignByte(s[1..]);
    }
  }

  lemma ColonInTokenIsLost(token: Bytes, text: Bytes)
    requires COLON in token
    ensures DecodeChoice(Payload(token, text)) == EXPIRED
  {
    SplitPayload(token, text);
    var rest := token + [COLON] + Encode(text);
    var j := Colon(rest);
    var k :| 0 <= k < |token| && token[k] == COLON;
    assert rest[k] == COLON;
    assert rest[j + 1..][|token| - j - 1] == COLON;
    ForeignByte(rest[j + 1..]);
  }

  /** A choice comes back as it was sent exactly when it was sendable; anything else is answered as expired. */
  lemma ChoiceRoundTrip(token: Bytes, text: Bytes)
    ensures DecodeChoice(Payload(token, text)) == Choice(token, text) <==> Sendable(token, text)
    ensures !Sendable(token, text) ==> DecodeChoice(Payload(token, text)) == EXPIRED
  {
    ExpiredTexts();
    if COLON in token {
      ColonInTokenIsLost(token, text);
    } else {
      SendableComesBack(token, text);
      if Choice(token, text) == EXPIRED {
        ShortAsciiIsSendable(token, text);
      }
    }
  }

  lemma ExpiredTexts()
    ensures COLON !in EXPIRED.token && 0 < |EXPIRED.token| < 100 && Ascii(EXPIRED.text) && 0 < |EXPIRED.text| < 100
  {
  }

  lemma ShortAsciiIsSendable(token: Bytes, text: Bytes)
    requires token != [] && COLON !in token && text != [] && Ascii(text) && |token| < 100 && |text| < 100
    ensures Sendable(token, text)
  {
    AsciiIsValid(text);
    EncodedLength(text);
  }

  /** No two sendable choices share a payload. */
  lemma PayloadsAreDistinct(token: Bytes, text: Bytes, token': Bytes, text': Bytes)
    requires Sendable(token, text) && Payload(token, text) == Payload(token', text') && Sendable(token', text')
    ensures token == token' && text == text'
  {
    ChoiceRoundTrip(token, text);
    ChoiceRoundTrip(token', text');
  }

  // ---------------------------------------------------------------- any payload that comes back

  /** The payload names this token, and what follows decodes to this text. */
  ghost predicate Reads(payload: Bytes, token: Bytes, text: Bytes) {
    && |payload| <= 1000 && token != [] && COLON !in token && text != [] && Valid(text)
    && exists code: Bytes :: payload == [SMALL_C, COLON] + token + [COLON] + code && Decode(code) == Some(text)
  }

  lemma ReadsAsChosen(payload: Bytes, token: Bytes, text: Bytes)
    requires Reads(payload, token, text)
    ensures DecodeChoice(payload) == Choice(token, text)
  {
    var code: Bytes :| payload == [SMALL_C, COLON] + token + [COLON] + code && Decode(code) == Some(text);
    var rest := token + [COLON] + code;
    assert payload == [SMALL_C] + [COLON] + rest;
    ColonAt([SMALL_C], rest);
    assert payload[..1] == [SMALL_C] && payload[2..] == rest;
    ColonAt(token, code);
    assert rest[..|token|] == token && rest[|token| + 1..] == code;
  }

  lemma CutAt(s: Bytes, i: nat)
    requires i < |s|
    ensures s == s[..i] + [s[i]] + s[i + 1..]
  {
  }

  lemma CutAtColon(s: Bytes)
    requires Colon(s) < |s|
    ensures s == s[..Colon(s)] + [COLON] + s[Colon(s) + 1..] && COLON !in s[..Colon(s)]
  {
    CutAt(s, Colon(s));
  }

  lemma Regroup(a: Bytes, b: Bytes, c: Bytes, rest: Bytes, token: Bytes, code: Bytes)
    ensures rest == token + c + code ==> a + b + rest == (a + b) + token + c + code
  {
  }

  lemma ChosenWasRead(payload: Bytes)
    requires DecodeChoice(payload) != EXPIRED
    ensures Reads(payload, DecodeChoice(payload).token, DecodeChoice(payload).text)
  {
    var c := DecodeChoice(payload);
    var rest := payload[Colon(payload) + 1..];
    var code := rest[Colon(rest) + 1..];
    CutAtColon(payload);
    CutAtColon(rest);
    Regroup([SMALL_C], [COLON], [COLON], rest, c.token, code);
    assert [SMALL_C] + [COLON] == [SMALL_C, COLON];
    assert Decode(code) == Some(c.text);
  }

  /** A payload of any origin is a choice exactly if it reads as one; every other is answered as expired. */
  lemma ForeignPayloadsExpire(payload: Bytes, token: Bytes, text: Bytes)
    ensures Choice(token, text) != EXPIRED ==>
      (DecodeChoice(payload) == Choice(token, text) <==> Reads(payload, token, text))
    ensures (forall t, x :: !Reads(payload, t, x)) ==> DecodeChoice(payload) == EXPIRED
  {
    if Reads(payload, token, text) {
      ReadsAsChosen(payload, token, text);
    }
    if DecodeChoice(payload) != EXPIRED {
      ChosenWasRead(payload);
    }
  }

  /** A small c, the token and the encoded label, separated by colons. */
  lemma PayloadLooks(token: Bytes, text: Bytes)
    ensures Payload(token, text) == ['c' as int, ':' as int] + token + [':' as int] + Encode(text)
  {
  }

  /** What an expired payload is answered with. */
  lemma ExpiredReads()
    ensures |EXPIRED.token| == 7 && forall i :: 0 <= i < 7 ==> EXPIRED.token[i] == "invalid"[i] as int
    ensures |EXPIRED.text| == 14 && forall i :: 0 <= i < 14 ==> EXPIRED.text[i] == "Expired choice"[i] as int
  {
  }
}
