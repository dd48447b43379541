/**
 The repository's own reader for RSA public keys (section 6.6 of RFC 4253) with
 mpints as in section 5 of RFC 4251, and the normal form of SHA-256 fingerprints.

 The general OpenSSH parser and SHA-256 are parameters.
 */
module RsaKey {
  import opened Prelude
  import opened Base64
  import opened ByteOrder

  const ALGORITHM: string := "ssh-rsa"
  const ALGORITHM_BYTES: seq<byte> := [115, 115, 104, 45, 114, 115, 97]
  const MAX_BLOB: nat := 65536

  /** Exponent and modulus, as encoded. */
  datatype Key = Key(exponent: seq<byte>, modulus: seq<byte>)

  datatype Field = Field(data: seq<byte>, offset: nat) | Truncated

  // ------------------------------------------------------------------ fields

  function ReadField(blob: seq<byte>, offset: nat): Field {
    if |blob| - offset < 4 then Truncated
    else
      var length := Unsigned(blob[offset..offset + 4]);
      if length > |blob| - offset - 4 then Truncated
      else Field(blob[offset + 4..offset + 4 + length], offset + 4 + length)
  }

  /** A positive mpint: no sign bit, no redundant leading zero, not zero. */
  predicate PositiveMPInt(e: seq<byte>) {
    && |e| > 0 && e[0] < 128
    && !(|e| > 1 && e[0] == 0 && e[1] < 128)
    && !(|e| == 1 && e[0] == 0)
  }

  function ParseBlob(blob: seq<byte>): Option<Key> {
    if |blob| > MAX_BLOB then None
    else
      var a := ReadField(blob, 0);
      if a.Truncated? || a.data != ALGORITHM_BYTES then None
      else
        var e := ReadField(blob, a.offset);
        if e.Truncated? then None
        else
          var n := ReadField(blob, e.offset);
          if n.Truncated? || n.offset != |blob| then None
          else if !PositiveMPInt(e.data) || !PositiveMPInt(n.data) then None
          else Some(Key(e.data, n.data))
  }

  // -------------------------------------------------------------- the format

  function Frame(data: seq<byte>): seq<byte> { BigEndian(|data|, 4) + data }

  function BlobOf(k: Key): seq<byte> { Frame(ALGORITHM_BYTES) + Frame(k.exponent) + Frame(k.modulus) }

  lemma PowerFour()
    ensures Power(4) == 0x1_0000_0000
  {
    assert Power(4) == 256 * (256 * (256 * (256 * 1)));
  }

  /** A framed field is read back, whatever stands around it. */
  lemma ReadFrame(before: seq<byte>, data: seq<byte>, after: seq<byte>)
    requires |data| < 0x1_0000_0000
    ensures ReadField(before + Frame(data) + after, |before|) == Field(data, |before| + 4 + |data|)
  {
    var blob := before + Frame(data) + after;
    assert blob[|before|..|before| + 4] == BigEndian(|data|, 4);
    PowerFour();
    UnsignedOfBytes(|data|, 4);
    assert blob[|before| + 4..|before| + 4 + |data|] == data;
  }

  /** A field that is read was framed there. */
  lemma ReadWasFramed(blob: seq<byte>, offset: nat)
    requires ReadField(blob, offset).Field?
    ensures var f := ReadField(blob, offset);
            offset <= f.offset <= |blob| && blob[offset..f.offset] == Frame(f.data) && f.offset == offset + 4 + |f.data|
  {
    var f := ReadField(blob, offset);
    BytesOfUnsigned(blob[offset..offset + 4]);
    assert blob[offset..f.offset] == blob[offset..offset + 4] + blob[offset + 4..f.offset];
  }

  /** Accepted blobs are exactly algorithm, exponent and modulus fields with canonical positive mpints and nothing after them. */
  lemma AcceptedExactly(blob: seq<byte>, k: Key)
    ensures ParseBlob(blob) == Some(k) <==>
              |blob| <= MAX_BLOB && blob == BlobOf(k) && PositiveMPInt(k.exponent) && PositiveMPInt(k.modulus)
  {
    if ParseBlob(blob) == Some(k) {
      var a := ReadField(blob, 0);
      ReadWasFramed(blob, 0);
      var e := ReadField(blob, a.offset);
      ReadWasFramed(blob, a.offset);
      ReadWasFramed(blob, e.offset);
      assert blob == blob[0..a.offset] + blob[a.offset..e.offset] + blob[e.offset..|blob|];
    }
    if |blob| <= MAX_BLOB && blob == BlobOf(k) && PositiveMPInt(k.exponent) && PositiveMPInt(k.modulus) {
      ReadBack(blob, k);
    }
  }

  lemma ReadBack(blob: seq<byte>, k: Key)
    requires |blob| <= MAX_BLOB && blob == BlobOf(k) && PositiveMPInt(k.exponent) && PositiveMPInt(k.modulus)
    ensures ParseBlob(blob) == Some(k)
  {
    var fa, fe, fn := Frame(ALGORITHM_BYTES), Frame(k.exponent), Frame(k.modulus);
    ReadFrame([], ALGORITHM_BYTES, fe + fn);
    assert [] + fa + (fe + fn) == blob;
    ReadFrame(fa, k.exponent, fn);
    ReadFrame(fa + fe, k.modulus, []);
    assert fa + fe + fn + [] == blob;
  }

  /** The blob determines exponent and modulus. */
  lemma BlobDetermines(a: Key, b: Key)
    requires BlobOf(a) == BlobOf(b) && |BlobOf(a)| <= MAX_BLOB
    requires PositiveMPInt(a.exponent) && PositiveMPInt(a.modulus) && PositiveMPInt(b.exponent) && PositiveMPInt(b.modulus)
    ensures a == b
  {
    AcceptedExactly(BlobOf(a), a);
    AcceptedExactly(BlobOf(b), b);
  }

  // ------------------------------------------------------------------ mpints

  function Digits(x: nat): seq<byte> { if x == 0 then [] else Digits(x / 256) + [x % 256] }

  /** The canonical encoding of a positive integer. */
  function MPInt(x: nat): seq<byte>
    requires x > 0
  {
    var d := Digits(x);
    if |d| > 0 && d[0] >= 128 then [0] + d else d
  }

  lemma {:induction false} DigitsFacts(x: nat)
    ensures Unsigned(Digits(x)) == x
    ensures x > 0 ==> |Digits(x)| > 0 && Digits(x)[0] > 0
  {
    if x > 0 {
      DigitsFacts(x / 256);
      var d := Digits(x);
      assert d[..|d| - 1] == Digits(x / 256);
    }
  }

  lemma {:induction false} DigitsUnique(data: seq<byte>)
    requires |data| > 0 ==> data[0] > 0
    ensures Digits(Unsigned(data)) == data
    ensures |data| > 0 ==> Unsigned(data) > 0
  {
    if |data| > 0 {
      var n := |data| - 1;
      DigitsUnique(data[..n]);
      assert data[..n] + [data[n]] == data;
    }
  }

  lemma {:induction false} LeadingZero(data: seq<byte>)
    ensures Unsigned([0] + data) == Unsigned(data)
  {
    if |data| > 0 {
      LeadingZero(data[..|data| - 1]);
      assert ([0] + data)[..|data|] == [0] + data[..|data| - 1];
    }
  }

  /** Canonical positive mpints and positive integers correspond one to one. */
  lemma MPIntExact(x: nat)
    requires x > 0
    ensures PositiveMPInt(MPInt(x)) && Unsigned(MPInt(x)) == x
  {
    DigitsFacts(x);
    LeadingZero(Digits(x));
  }

  lemma MPIntUnique(e: seq<byte>)
    requires PositiveMPInt(e)
    ensures Unsigned(e) > 0 && MPInt(Unsigned(e)) == e
  {
    if e[0] == 0 {
      assert e == [0] + e[1..];
      LeadingZero(e[1..]);
      DigitsUnique(e[1..]);
    } else {
      DigitsUnique(e);
    }
  }

  /** The blob determines the two integers, and they determine the blob. */
  lemma IntegersDetermineBlob(a: Key, b: Key)
    requires PositiveMPInt(a.exponent) && PositiveMPInt(a.modulus) && PositiveMPInt(b.exponent) && PositiveMPInt(b.modulus)
    requires |BlobOf(a)| <= MAX_BLOB
    ensures BlobOf(a) == BlobOf(b) <==> Unsigned(a.exponent) == Unsigned(b.exponent) && Unsigned(a.modulus) == Unsigned(b.modulus)
  {
    MPIntUnique(a.exponent);
    MPIntUnique(a.modulus);
    MPIntUnique(b.exponent);
    MPIntUnique(b.modulus);
    if BlobOf(a) == BlobOf(b) { BlobDetermines(a, b); }
  }

  // -------------------------------------------------------------------- text

  function TrimLeft(s: string): string { if |s| > 0 && Blank(s[0]) then TrimLeft(s[1..]) else s }

  function TrimRight(s: string): string { if |s| > 0 && Blank(s[|s| - 1]) then TrimRight(s[..|s| - 1]) else s }

  function TrimSpace(s: string): string { TrimRight(TrimLeft(s)) }

  function Word(s: string): (w: string)
    ensures |w| <= |s|
  {
    if |s| == 0 || Blank(s[0]) then "" else [s[0]] + Word(s[1..])
  }

  function Fields(s: string): seq<string> {
    if |s| == 0 then []
    else if Blank(s[0]) then Fields(s[1..])
    else [Word(s)] + Fields(s[|Word(s)|..])
  }

  function DecodeBlob(encoded: string): Option<seq<byte>> {
    var padded := DecodePadded(encoded, false, true);
    if padded.Some? then padded else DecodeRaw(encoded, false, true)
  }

  /** parseRFC4253RSA, up to the blob. */
  function ParseRSA(value: string): Option<seq<byte>> {
    var line := TrimSpace(value);
    if exists i :: 0 <= i < |line| && NewLine(line[i]) then None
    else
      var fields := Fields(line);
      if |fields| < 2 || fields[0] != ALGORITHM then None
      else
        var blob := DecodeBlob(fields[1]);
        if blob.None? || ParseBlob(blob.value).None? then None else blob
  }

  function Canonical(blob: seq<byte>): string { ALGORITHM + " " + EncodePadded(blob, false) }

  lemma {:induction false} PaddedLength(s: string, url: bool, strict: bool)
    requires DecodePaddedText(s, url, strict).Some?
    ensures |s| % 4 == 0
  {
    if |s| > 4 { PaddedLength(s[4..], url, strict); }
  }

  /** Padded and unpadded Base64 of a blob are read alike. */
  lemma BlobRoundTrip(blob: seq<byte>)
    ensures DecodeBlob(EncodePadded(blob, false)) == Some(blob)
    ensures DecodeBlob(EncodeRaw(blob, false)) == Some(blob)
  {
    DecodeEncoded(blob, false, true);
    if |blob| % 3 == 0 {
      assert EncodePadded(blob, false) == EncodeRaw(blob, false);
    } else {
      RawIsNotPadded(blob);
    }
  }

  lemma RawIsNotPadded(blob: seq<byte>)
    requires |blob| % 3 != 0
    ensures DecodePadded(EncodeRaw(blob, false), false, true).None?
  {
    var raw := EncodeRaw(blob, false);
    EncodedClean(blob, false);
    CleanStripped(raw);
    RawTail(blob, false);
    if DecodePaddedText(raw, false, true).Some? { PaddedLength(raw, false, true); }
  }

  /** Nothing but the two Base64 texts of a blob is accepted for it. */
  lemma BlobTextsExact(encoded: string)
    requires Clean(encoded) && DecodeBlob(encoded).Some?
    ensures var blob := DecodeBlob(encoded).value;
            encoded == EncodePadded(blob, false) || encoded == EncodeRaw(blob, false)
  {
    CleanStripped(encoded);
    if DecodePadded(encoded, false, true).Some? { PaddedStrict(encoded, false); } else { RawStrict(encoded, false); }
  }

  lemma {:induction false} WordOfClean(s: string)
    requires Clean(s)
    ensures Word(s) == s
  {
    if |s| > 0 { WordOfClean(s[1..]); }
  }

  lemma {:induction false} WordStops(s: string, rest: string)
    requires Clean(s) && |rest| > 0 && Blank(rest[0])
    ensures Word(s + rest) == s
  {
    if |s| == 0 {
      assert s + rest == rest;
    } else {
      WordStops(s[1..], rest);
      assert (s + rest)[1..] == s[1..] + rest;
    }
  }

  lemma TwoFields(a: string, b: string)
    requires Clean(a) && Clean(b) && |a| > 0 && |b| > 0
    ensures Fields(a + " " + b) == [a, b] && TrimSpace(a + " " + b) == a + " " + b
    ensures forall i :: 0 <= i < |a + " " + b| ==> !NewLine((a + " " + b)[i])
  {
    var s := a + " " + b;
    assert s == a + (" " + b);
    WordStops(a, " " + b);
    WordOfClean(b);
    assert s[|a|..] == " " + b && (" " + b)[1..] == b;
    assert Fields(" " + b) == Fields(b);
    assert b[|Word(b)|..] == "" && Fields(b) == [b];
    assert !Blank(s[0]) && !Blank(s[|s| - 1]);
  }

  /** Parsing the canonical form of an accepted key gives the same key. */
  lemma CanonicalReparses(value: string)
    requires ParseRSA(value).Some?
    ensures ParseRSA(Canonical(ParseRSA(value).value)) == ParseRSA(value)
  {
    CanonicalParses(ParseRSA(value).value);
  }

  lemma CanonicalParses(blob: seq<byte>)
    requires ParseBlob(blob).Some?
    ensures ParseRSA(Canonical(blob)) == Some(blob)
  {
    BlobRoundTrip(blob);
    EncodedNonEmpty(blob);
    assert Clean(ALGORITHM);
    TwoFields(ALGORITHM, EncodePadded(blob, false));
    ParsesLine(Canonical(blob), EncodePadded(blob, false), blob);
  }

  lemma ParsesLine(line: string, encoded: string, blob: seq<byte>)
    requires TrimSpace(line) == line && Fields(line) == [ALGORITHM, encoded]
    requires forall i :: 0 <= i < |line| ==> !NewLine(line[i])
    requires DecodeBlob(encoded) == Some(blob) && ParseBlob(blob).Some?
    ensures ParseRSA(line) == Some(blob)
  {
  }

  lemma EncodedNonEmpty(blob: seq<byte>)
    requires |blob| > 0
    ensures Clean(EncodePadded(blob, false)) && |EncodePadded(blob, false)| > 0
  {
    EncodedClean(blob, false);
    RawLength(blob, false);
  }

  // ------------------------------------------------------------- fingerprints

  /** What the general OpenSSH parser made of a line. */
  datatype Ssh = Parsed(blob: seq<byte>) | TrailingText | Failed

  const PREFIX: string := "SHA256:"

  function Lower(c: char): char { if 'A' <= c <= 'Z' then 'a' + (c - 'A') else c }

  predicate EqualFold(a: string, b: string) { |a| == |b| && forall i :: 0 <= i < |a| ==> Lower(a[i]) == Lower(b[i]) }

  function NormalizeDigest(encoded: string): Option<string> {
    var raw :=
      if |encoded| == 43 then DecodeRaw(encoded, false, false)
      else if |encoded| == 44 && encoded[43] == '=' then DecodePadded(encoded, false, false)
      else None;
    if raw.None? || |raw.value| != 32 then None else Some(PREFIX + EncodeRaw(raw.value, false))
  }

  function Text(blob: seq<byte>, sha: seq<byte> -> seq<byte>): string { PREFIX + EncodeRaw(sha(blob), false) }

  function Parse(value: string, ssh: string -> Ssh, sha: seq<byte> -> seq<byte>): Option<string> {
    match ssh(TrimSpace(value))
    case Parsed(blob) => Some(Text(blob, sha))
    case TrailingText => None
    case Failed =>
      match ParseRSA(value)
      case Some(blob) => Some(Text(blob, sha))
      case None => None
  }

  function NormalizeFingerprint(value: string, ssh: string -> Ssh, sha: seq<byte> -> seq<byte>): Option<string> {
    var v := TrimSpace(value);
    if |v| >= 7 && EqualFold(v[..7], PREFIX) then NormalizeDigest(v[7..])
    else if |v| == 43 || (|v| == 44 && v[43] == '=') then NormalizeDigest(v)
    else Parse(v, ssh, sha)
  }

  /** A text in normal form is its own normal form. */
  lemma NormalFormStays(digest: seq<byte>, ssh: string -> Ssh, sha: seq<byte> -> seq<byte>)
    requires |digest| == 32
    ensures var text := PREFIX + EncodeRaw(digest, false); NormalizeFingerprint(text, ssh, sha) == Some(text)
  {
    var enc := EncodeRaw(digest, false);
    var text := PREFIX + enc;
    RawLength(digest, false);
    EncodedClean(digest, false);
    DecodeEncoded(digest, false, false);
    assert text[..7] == PREFIX && text[7..] == enc;
    assert !Blank(text[0]) && !Blank(text[|text| - 1]);
  }

  /** Fingerprint normalisation is idempotent, for digests and for keys. */
  lemma NormalizeIdempotent(value: string, ssh: string -> Ssh, sha: seq<byte> -> seq<byte>)
    requires forall b :: |sha(b)| == 32
    requires NormalizeFingerprint(value, ssh, sha).Some?
    ensures var y := NormalizeFingerprint(value, ssh, sha).value; NormalizeFingerprint(y, ssh, sha) == Some(y)
  {
    var v := TrimSpace(value);
    if |v| >= 7 && EqualFold(v[..7], PREFIX) {
      DigestNormal(v[7..], ssh, sha);
    } else if |v| == 43 || (|v| == 44 && v[43] == '=') {
      DigestNormal(v, ssh, sha);
    } else {
      match ssh(TrimSpace(v))
      case Parsed(blob) => NormalFormStays(sha(blob), ssh, sha);
      case TrailingText =>
      case Failed => NormalFormStays(sha(ParseRSA(v).value), ssh, sha);
    }
  }

  lemma DigestNormal(encoded: string, ssh: string -> Ssh, sha: seq<byte> -> seq<byte>)
    requires NormalizeDigest(encoded).Some?
    ensures var y := NormalizeDigest(encoded).value; NormalizeFingerprint(y, ssh, sha) == Some(y)
  {
    var raw := if |encoded| == 43 then DecodeRaw(encoded, false, false) else DecodePadded(encoded, false, false);
    NormalFormStays(raw.value, ssh, sha);
  }

  // ------------------------------------------------------------- the reader

  /** readSSHField moves the offset past the field it returns, and past the length of one it cannot return. */
  method ReadSSHField(blob: seq<byte>, offset: nat) returns (ok: bool, field: seq<byte>, next: nat)
    ensures ok <==> ReadField(blob, offset).Field?
    ensures ok ==> ReadField(blob, offset) == Field(field, next)
    ensures !ok ==> field == [] && (next == offset || next == offset + 4)
  {
    if |blob| - offset < 4 { return false, [], offset; }
    var length := Unsigned(blob[offset..offset + 4]);
    next := offset + 4;
    if length > |blob| - next { return false, [], next; }
    field := blob[next..next + length];
    next := next + length;
    ok := true;
  }

  method ReadKey(blob: seq<byte>) returns (key: Option<Key>)
    ensures key == ParseBlob(blob)
  {
    if |blob| > MAX_BLOB { return None; }
    var offset := 0;
    var ok, algorithm, exponent, modulus;
    ok, algorithm, offset := ReadSSHField(blob, offset);
    if !ok || algorithm != ALGORITHM_BYTES { return None; }
    ok, exponent, offset := ReadSSHField(blob, offset);
    if !ok { return None; }
    ok, modulus, offset := ReadSSHField(blob, offset);
    if !ok || offset != |blob| { return None; }
    if !PositiveMPInt(exponent) || !PositiveMPInt(modulus) { return None; }
    key := Some(Key(exponent, modulus));
  }
}
