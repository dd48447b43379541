/**
 Base64 as in sections 3.2, 4 and 5 of RFC 4648: standard and URL alphabets, with
 and without padding, and the strict rule that unused trailing bits are zero.
 Decoding skips carriage returns and line feeds.
 */
module Base64 {
  import opened Prelude

  type sextet = x: int | 0 <= x < 64

  function Letter(v: sextet, url: bool): char {
    if v < 26 then 'A' + v as char
    else if v < 52 then 'a' + (v - 26) as char
    else if v < 62 then '0' + (v - 52) as char
    else if v == 62 then (if url then '-' else '+')
    else (if url then '_' else '/')
  }

  function Value(c: char, url: bool): Option<sextet> {
    if 'A' <= c <= 'Z' then Some((c - 'A') as int)
    else if 'a' <= c <= 'z' then Some((c - 'a') as int + 26)
    else if '0' <= c <= '9' then Some((c - '0') as int + 52)
    else if c == (if url then '-' else '+') then Some(62)
    else if c == (if url then '_' else '/') then Some(63)
    else None
  }

  lemma LetterValue(v: sextet, url: bool)
    ensures Value(Letter(v, url), url) == Some(v) && Letter(v, url) != '=' && !NewLine(Letter(v, url)) && !Blank(Letter(v, url))
  {
  }

  predicate NewLine(c: char) { c == '\r' || c == '\n' }

  /** The white space that separates fields. */
  predicate Blank(c: char) {
    || c in {' ', '\t', '\n', '\r', '\U{000b}', '\U{000c}', '\U{0085}', '\U{00a0}', '\U{1680}', '\U{2028}', '\U{2029}', '\U{202f}', '\U{205f}', '\U{3000}'}
    || '\U{2000}' <= c <= '\U{200a}'
  }

  function Stripped(s: string): string {
    if |s| == 0 then "" else Stripped(s[..|s| - 1]) + (if NewLine(s[|s| - 1]) then "" else [s[|s| - 1]])
  }

  // ----------------------------------------------------------------- encoding

  function Letters(vs: seq<sextet>, url: bool): string { seq(|vs|, i requires 0 <= i < |vs| => Letter(vs[i], url)) }

  function Group(a: byte, b: byte, c: byte): seq<sextet> { [a / 4, a % 4 * 16 + b / 16, b % 16 * 4 + c / 64, c % 64] }

  /** Without padding. */
  function EncodeRaw(data: seq<byte>, url: bool): string {
    if |data| == 0 then ""
    else if |data| == 1 then Letters(Group(data[0], 0, 0)[..2], url)
    else if |data| == 2 then Letters(Group(data[0], data[1], 0)[..3], url)
    else Letters(Group(data[0], data[1], data[2]), url) + EncodeRaw(data[3..], url)
  }

  function Padding(n: nat): string { if n % 3 == 1 then "==" else if n % 3 == 2 then "=" else "" }

  function EncodePadded(data: seq<byte>, url: bool): string { EncodeRaw(data, url) + Padding(|data|) }

  // ----------------------------------------------------------------- decoding

  /** The values of all letters, or None if one is no letter. */
  function Values(s: string, url: bool): (r: Option<seq<sextet>>)
    ensures r.Some? ==> |r.value| == |s|
  {
    if |s| == 0 then Some([])
    else
      var front := Values(s[..|s| - 1], url);
      var last := Value(s[|s| - 1], url);
      if front.Some? && last.Some? then Some(front.value + [last.value]) else None
  }

  function Bytes(a: sextet, b: sextet, c: sextet, d: sextet): seq<byte> { [a * 4 + b / 16, b % 16 * 16 + c / 4,
                 c % 4 * 64 + d] }

  /** Two or three letters at the end stand for one or two bytes. */
  function Tail(vs: seq<sextet>, strict: bool): Option<seq<byte>> {
    if |vs| == 2 && (!strict || vs[1] % 16 == 0) then Some(Bytes(vs[0], vs[1], 0, 0)[..1])
    else if |vs| == 3 && (!strict || vs[2] % 4 == 0) then Some(Bytes(vs[0], vs[1], vs[2], 0)[..2])
    else None
  }

  function DecodeRawText(s: string, url: bool, strict: bool): Option<seq<byte>> {
    if |s| == 0 then Some([])
    else if |s| < 4 then
      var vs := Values(s, url);
      if vs.Some? then Tail(vs.value, strict) else None
    else
      var vs := Values(s[..4], url);
      var rest := DecodeRawText(s[4..], url, strict);
      if vs.Some? && rest.Some? then Some(Bytes(vs.value[0], vs.value[1], vs.value[2], vs.value[3]) + rest.value) else None
  }

  /** Padding may only end the text, in place of the last letters of the last group. */
  function DecodePaddedText(s: string, url: bool, strict: bool): Option<seq<byte>> {
    if |s| == 0 then Some([])
    else if |s| < 4 then None
    else if s[3] == '=' then
      if |s| > 4 then None
      else
        var vs := Values(if s[2] == '=' then s[..2] else s[..3], url);
        if vs.Some? then Tail(vs.value, strict) else None
    else
      var vs := Values(s[..4], url);
      var rest := DecodePaddedText(s[4..], url, strict);
      if vs.Some? && rest.Some? then Some(Bytes(vs.value[0], vs.value[1], vs.value[2], vs.value[3]) + rest.value) else None
  }

  function DecodeRaw(s: string, url: bool, strict: bool): Option<seq<byte>> { DecodeRawText(Stripped(s), url, strict) }

  function DecodePadded(s: string, url: bool, strict: bool): Option<seq<byte>> { DecodePaddedText(Stripped(s), url, strict) }

  // --------------------------------------------------------------- round trips

  lemma {:induction false} ValuesOfLetters(vs: seq<sextet>, url: bool)
    ensures Values(Letters(vs, url), url) == Some(vs)
  {
    if |vs| > 0 {
      var n := |vs| - 1;
      ValuesOfLetters(vs[..n], url);
      assert Letters(vs, url)[..n] == Letters(vs[..n], url);
      LetterValue(vs[n], url);
      assert vs[..n] + [vs[n]] == vs;
    }
  }

  lemma {:induction false} LettersOfValues(s: string, url: bool)
    requires Values(s, url).Some?
    ensures Letters(Values(s, url).value, url) == s
  {
    if |s| > 0 {
      var n := |s| - 1;
      LettersOfValues(s[..n], url);
      assert s[..n] + [s[n]] == s;
      var vs := Values(s, url).value;
      assert Letters(vs, url) == Letters(vs[..n], url) + [Letter(vs[n], url)];
    }
  }

  lemma GroupBytes(a: byte, b: byte, c: byte)
    ensures var g := Group(a, b, c); Bytes(g[0], g[1], g[2], g[3]) == [a, b, c]
  {
  }

  lemma BytesGroup(a: sextet, b: sextet, c: sextet, d: sextet)
    ensures var x := Bytes(a, b, c, d); Group(x[0], x[1], x[2]) == [a, b, c, d]
  {
    var x := Bytes(a, b, c, d);
    assert x[0] / 4 == a && x[0] % 4 == b / 16;
    assert x[1] / 16 == b % 16 && x[1] % 16 == c / 4;
    assert x[2] / 64 == c % 4 && x[2] % 64 == d;
    assert b / 16 * 16 + b % 16 == b && c / 4 * 4 + c % 4 == c;
  }

  lemma TailOfGroup(a: byte, b: byte, strict: bool)
    ensures Tail(Group(a, 0, 0)[..2], strict) == Some([a])
    ensures Tail(Group(a, b, 0)[..3], strict) == Some([a, b])
  {
    GroupBytes(a, 0, 0);
    GroupBytes(a, b, 0);
    var one, two := Group(a, 0, 0), Group(a, b, 0);
    assert one[2] == 0 && one[3] == 0 && one[1] % 16 == 0;
    assert two[3] == 0 && two[2] % 4 == 0;
    assert Bytes(one[0], one[1], 0, 0) == [a, 0, 0] && [a, 0, 0][..1] == [a];
    assert Bytes(two[0], two[1], two[2], 0) == [a, b, 0] && [a, b, 0][..2] == [a, b];
  }

  lemma GroupOfTail(vs: seq<sextet>)
    requires Tail(vs, true).Some?
    ensures var data := Tail(vs, true).value;
            && |data| == |vs| - 1
            && (|data| == 1 ==> Group(data[0], 0, 0)[..2] == vs)
            && (|data| == 2 ==> Group(data[0], data[1], 0)[..3] == vs)
  {
    if |vs| == 2 { BytesGroup(vs[0], vs[1], 0, 0); } else { BytesGroup(vs[0], vs[1], vs[2], 0); }
  }

  /** Decoding undoes encoding, strictly or not. */
  lemma FullGroup(a: byte, b: byte, c: byte, url: bool)
    ensures var s := Letters(Group(a, b, c), url);
            && |s| == 4 && s[3] != '=' && Values(s, url) == Some(Group(a, b, c))
            && var vs := Values(s, url).value; Bytes(vs[0], vs[1], vs[2], vs[3]) == [a, b, c]
  {
    ValuesOfLetters(Group(a, b, c), url);
    GroupBytes(a, b, c);
    LetterValue(Group(a, b, c)[3], url);
  }

  lemma ShortGroup(a: byte, b: byte, url: bool, strict: bool)
    ensures var s := Letters(Group(a, 0, 0)[..2], url);
            |s| == 2 && Values(s, url).Some? && Tail(Values(s, url).value, strict) == Some([a])
    ensures var s := Letters(Group(a, b, 0)[..3], url);
            |s| == 3 && s[2] != '=' && Values(s, url).Some? && Tail(Values(s, url).value, strict) == Some([a, b])
  {
    ValuesOfLetters(Group(a, 0, 0)[..2], url);
    ValuesOfLetters(Group(a, b, 0)[..3], url);
    TailOfGroup(a, b, strict);
    LetterValue(Group(a, b, 0)[2], url);
  }

  lemma {:induction false} RawRoundTrip(data: seq<byte>, url: bool, strict: bool)
    ensures DecodeRawText(EncodeRaw(data, url), url, strict) == Some(data)
  {
    if |data| == 1 {
      ShortGroup(data[0], 0, url, strict);
      assert data == [data[0]];
    } else if |data| == 2 {
      ShortGroup(data[0], data[1], url, strict);
      assert data == [data[0], data[1]];
    } else if |data| > 2 {
      RawRoundTrip(data[3..], url, strict);
      FullGroup(data[0], data[1], data[2], url);
      var s := EncodeRaw(data, url);
      assert s[..4] == Letters(Group(data[0], data[1], data[2]), url) && s[4..] == EncodeRaw(data[3..], url);
      assert [data[0], data[1], data[2]] + data[3..] == data;
    }
  }

  lemma PaddedShort(data: seq<byte>, url: bool, strict: bool)
    requires 1 <= |data| <= 2
    ensures DecodePaddedText(EncodePadded(data, url), url, strict) == Some(data)
  {
    var s := EncodePadded(data, url);
    if |data| == 1 {
      ShortGroup(data[0], 0, url, strict);
      assert data == [data[0]] && s[..2] == Letters(Group(data[0], 0, 0)[..2], url);
    } else {
      ShortGroup(data[0], data[1], url, strict);
      assert data == [data[0], data[1]] && s[..3] == Letters(Group(data[0], data[1], 0)[..3], url) && s[2] != '=';
    }
  }

  lemma {:induction false} PaddedRoundTrip(data: seq<byte>, url: bool, strict: bool)
    ensures DecodePaddedText(EncodePadded(data, url), url, strict) == Some(data)
  {
    if 1 <= |data| <= 2 {
      PaddedShort(data, url, strict);
    } else if |data| > 2 {
      var s, g := EncodePadded(data, url), Letters(Group(data[0], data[1], data[2]), url);
      PaddedRoundTrip(data[3..], url, strict);
      FullGroup(data[0], data[1], data[2], url);
      EncodeMore(data[..3], data[3..], url);
      assert data[..3] + data[3..] == data && data[..3] == [data[0], data[1], data[2]];
      assert s == g + EncodePadded(data[3..], url);
      assert s[..4] == g && s[4..] == EncodePadded(data[3..], url);
    }
  }

  /** Strict decoding accepts nothing but encodings. */
  lemma GroupOfFull(s: string, url: bool)
    requires |s| == 4 && Values(s, url).Some?
    ensures var vs := Values(s, url).value; var x := Bytes(vs[0], vs[1], vs[2], vs[3]);
            Letters(Group(x[0], x[1], x[2]), url) == s
  {
    var vs := Values(s, url).value;
    LettersOfValues(s, url);
    BytesGroup(vs[0], vs[1], vs[2], vs[3]);
    assert vs == [vs[0], vs[1], vs[2], vs[3]];
  }

  lemma EncodeMore(x: seq<byte>, rest: seq<byte>, url: bool)
    requires |x| == 3
    ensures EncodeRaw(x + rest, url) == Letters(Group(x[0], x[1], x[2]), url) + EncodeRaw(rest, url)
    ensures Padding(|x + rest|) == Padding(|rest|)
  {
    assert (x + rest)[3..] == rest;
  }

  lemma {:induction false} RawStrict(s: string, url: bool)
    requires DecodeRawText(s, url, true).Some?
    ensures EncodeRaw(DecodeRawText(s, url, true).value, url) == s
  {
    if 0 < |s| < 4 {
      LettersOfValues(s, url);
      GroupOfTail(Values(s, url).value);
    } else if |s| >= 4 {
      RawStrict(s[4..], url);
      GroupOfFull(s[..4], url);
      var vs := Values(s[..4], url).value;
      EncodeMore(Bytes(vs[0], vs[1], vs[2], vs[3]), DecodeRawText(s[4..], url, true).value, url);
      assert s == s[..4] + s[4..];
    }
  }

  lemma PaddedEnd(s: string, url: bool)
    requires |s| == 4 && s[3] == '=' && DecodePaddedText(s, url, true).Some?
    ensures EncodePadded(DecodePaddedText(s, url, true).value, url) == s
  {
    var text := if s[2] == '=' then s[..2] else s[..3];
    LettersOfValues(text, url);
    GroupOfTail(Values(text, url).value);
    assert s == text + Padding(|text| - 1);
  }

  lemma {:induction false} PaddedStrict(s: string, url: bool)
    requires DecodePaddedText(s, url, true).Some?
    ensures EncodePadded(DecodePaddedText(s, url, true).value, url) == s
  {
    if |s| > 0 && s[3] == '=' {
      PaddedEnd(s, url);
    } else if |s| > 0 {
      PaddedStrict(s[4..], url);
      GroupOfFull(s[..4], url);
      var vs := Values(s[..4], url).value;
      EncodeMore(Bytes(vs[0], vs[1], vs[2], vs[3]), DecodePaddedText(s[4..], url, true).value, url);
      assert s == s[..4] + s[4..];
    }
  }

  // ------------------------------------------------------------------- lengths

  lemma {:induction false} RawLength(data: seq<byte>, url: bool)
    ensures |EncodeRaw(data, url)| == (8 * |data| + 5) / 6
  {
    if |data| > 2 { RawLength(data[3..], url); }
  }

  /** Only a whole number of triples needs no padding. */
  lemma {:induction false} RawTail(data: seq<byte>, url: bool)
    ensures |EncodeRaw(data, url)| % 4 == if |data| % 3 == 0 then 0 else |data| % 3 + 1
  {
    if |data| > 2 { RawTail(data[3..], url); }
  }

  ghost predicate Clean(s: string) { forall i :: 0 <= i < |s| ==> !NewLine(s[i]) && !Blank(s[i]) }

  lemma {:induction false} CleanStripped(s: string)
    requires forall i :: 0 <= i < |s| ==> !NewLine(s[i])
    ensures Stripped(s) == s
  {
    if |s| > 0 { CleanStripped(s[..|s| - 1]); }
  }

  lemma {:induction false} EncodedClean(data: seq<byte>, url: bool)
    ensures Clean(EncodeRaw(data, url)) && Clean(EncodePadded(data, url))
    ensures forall i :: 0 <= i < |EncodeRaw(data, url)| ==> EncodeRaw(data, url)[i] != '='
  {
    forall v: sextet { LetterValue(v, url); }
    if |data| > 2 { EncodedClean(data[3..], url); }
  }

  /** What the decoders do to encodings. */
  lemma DecodeEncoded(data: seq<byte>, url: bool, strict: bool)
    ensures DecodeRaw(EncodeRaw(data, url), url, strict) == Some(data)
    ensures DecodePadded(EncodePadded(data, url), url, strict) == Some(data)
  {
    EncodedClean(data, url);
    CleanStripped(EncodeRaw(data, url));
    CleanStripped(EncodePadded(data, url));
    RawRoundTrip(data, url, strict);
    PaddedRoundTrip(data, url, strict);
  }
}
