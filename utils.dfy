/**
 * The formatting and encoding helpers of src/utils.ts: random strings and
 * block ids over the alphanumeric alphabet, the PKCE code challenge
 * encoding, duration formatting, wikilinks, note paths and the ids of
 * local tracks. Randomness and digests are inputs: `Math.random()` is a
 * function from the draw number to an index into the alphabet,
 * `crypto.getRandomValues` and SHA-256 are sequences of bytes.
 */
module Utils {
  import opened Wrappers
  import Text
  import Base64
  import Wikilinks
  import Items

  type Byte = Base64.Byte

  /** An index into the 62-character alphabet: `Math.floor(Math.random() * 62)`. */
  type CharIndex = d: nat | d < 62

  /** "ABC…XYZabc…xyz012…789", the `possible` and `chars` strings. */
  const Alphabet: string := Base64.Alphanumerics

  lemma AlphabetIsAlnum(i: nat)
    requires i < 62
    ensures |Alphabet| == 62 && Base64.IsAlnum(Alphabet[i])
  {
  }

  lemma AlphabetSize()
    ensures |Alphabet| == 62
  {
  }

  // ---------------------------------------------------------------- random strings

  /**
   * `generateRandomString`: the reduce over the random bytes, each mapped to
   * the alphabet character at its value modulo 62.
   */
  function GenerateRandomString(values: seq<Byte>): (r: string)
    ensures |r| == |values|
    ensures forall i :: 0 <= i < |values| ==> r[i] == Alphabet[values[i] % 62]
  {
    AlphabetSize();
    if values == [] then ""
    else
      var init := values[..|values| - 1];
      var r := GenerateRandomString(init) + [Alphabet[values[|values| - 1] % 62]];
      assert forall i :: 0 <= i < |init| ==> r[i] == GenerateRandomString(init)[i] && init[i] == values[i];
      r
  }

  /** The unreserved characters of section 2.3 of RFC 3986, as RFC 7636 uses them. */
  predicate IsUnreserved(c: char) {
    Base64.IsAlnum(c) || c == '-' || c == '.' || c == '_' || c == '~'
  }

  /** Section 4.1 of RFC 7636: 43 to 128 unreserved characters. */
  predicate IsCodeVerifier(s: string) {
    43 <= |s| <= 128 && forall i :: 0 <= i < |s| ==> IsUnreserved(s[i])
  }

  /** The 64 random bytes api.ts draws make a code verifier that RFC 7636 accepts. */
  lemma RandomStringIsCodeVerifier(values: seq<Byte>)
    requires 43 <= |values| <= 128
    ensures IsCodeVerifier(GenerateRandomString(values))
  {
    var r := GenerateRandomString(values);
    forall i | 0 <= i < |r| ensures IsUnreserved(r[i]) {
      AlphabetIsAlnum(values[i] % 62);
    }
  }

  // ---------------------------------------------------------------- block ids

  /** The id that `generateBlockID(n)` builds when the i-th draw picks index draw(i). */
  function BlockIdOf(n: nat, draw: nat -> CharIndex): (r: string)
    ensures |r| == n
    ensures forall i :: 0 <= i < n ==> r[i] == Alphabet[draw(i)]
  {
    seq(n, i requires 0 <= i => Alphabet[draw(i)])
  }

  /** `generateBlockID(idLen)`: appends one drawn character per iteration. */
  method GenerateBlockID(idLen: nat, draw: nat -> CharIndex) returns (id: string)
    ensures id == BlockIdOf(idLen, draw)
    ensures |id| == idLen && forall i :: 0 <= i < idLen ==> Base64.IsAlnum(id[i])
  {
    id := "";
    for i := 0 to idLen
      invariant |id| == i && forall j :: 0 <= j < i ==> id[j] == Alphabet[draw(j)]
    {
      id := id + [Alphabet[draw(i)]];
    }
    assert id == BlockIdOf(idLen, draw);
    forall i | 0 <= i < idLen ensures Base64.IsAlnum(id[i]) {
      AlphabetIsAlnum(draw(i));
    }
  }

  // ---------------------------------------------------------------- code challenge

  /** `base64encode`: btoa, then drop "=", then "+" to "-" and "/" to "_". */
  function Base64Encode(input: seq<Byte>): (r: string)
    ensures r == Base64.Base64UrlNoPadding(input)
    ensures '=' !in r && '+' !in r && '/' !in r
  {
    Base64.UrlSafeBtoa(input);
    UrlAlphabetChars(Base64.Base64UrlNoPadding(input));
    Base64.UrlSafe(Base64.Btoa(input))
  }

  lemma UrlAlphabetChars(s: string)
    requires forall i :: 0 <= i < |s| ==> s[i] in Base64.UrlAlphabet
    ensures '=' !in s && '+' !in s && '/' !in s
    ensures forall i :: 0 <= i < |s| ==> IsUnreserved(s[i])
  {
    forall i | 0 <= i < |s| ensures IsUnreserved(s[i]) && s[i] != '=' && s[i] != '+' && s[i] != '/' {
      var k :| 0 <= k < 64 && Base64.UrlAlphabet[k] == s[i];
      if k < 62 {
        assert Base64.UrlAlphabet[k] == Base64.Alphanumerics[k] == Base64.AlnumChar(k);
      }
    }
  }

  /** Section 4.2 of RFC 7636: the S256 challenge of a 32-byte digest has 43 unreserved characters. */
  lemma CodeChallengeShape(digest: seq<Byte>)
    requires |digest| == 32
    ensures |Base64Encode(digest)| == 43
    ensures forall i :: 0 <= i < 43 ==> IsUnreserved(Base64Encode(digest)[i])
  {
    Base64.Base64UrlLength(digest);
    UrlAlphabetChars(Base64Encode(digest));
  }

  // ---------------------------------------------------------------- durations

  /** `formatMs`: H:MM:SS from one hour on, M:SS below, sub-second milliseconds dropped. */
  function FormatMs(ms: nat): (r: string)
    ensures ParseDuration(r) == Some(ms / 1000)
  {
    var totalSeconds := ms / 1000;
    var clock := FormatClock(totalSeconds / 3600, (totalSeconds % 3600) / 60, totalSeconds % 60);
    if totalSeconds >= 3600 then
      ClockOfSeconds(totalSeconds); clock
    else
      ClockArithmetic(totalSeconds);
      assert clock == FormatClock(0, totalSeconds / 60, totalSeconds % 60);
      ClockShortForm(totalSeconds / 60, totalSeconds % 60, totalSeconds); clock
  }

  /** The string `formatMs` builds from its hours, minutes and seconds. */
  function FormatClock(hours: nat, minutes: nat, seconds: nat): string {
    var paddedSeconds := Text.PadStart(Text.NatToString(seconds), 2, '0');
    if hours >= 1 then
      Text.NatToString(hours) + ":" + Text.PadStart(Text.NatToString(minutes), 2, '0') + ":" + paddedSeconds
    else
      Text.NatToString(minutes) + ":" + paddedSeconds
  }

  /** A field of a duration: a non-empty decimal numeral. */
  function ParseField(s: string): Option<nat> {
    if |s| >= 1 && Text.IsNumeral(s, 10) then Some(Text.ParseRadix(s, 10)) else None
  }

  /** Reads "M:SS" or "H:MM:SS" back as a number of seconds. */
  function ParseDuration(s: string): Option<nat> {
    var parts := Text.Split(s, ':');
    if |parts| == 2 then
      match (ParseField(parts[0]), ParseField(parts[1]))
      case (Some(m), Some(sec)) => Some(m * 60 + sec)
      case _ => None
    else if |parts| == 3 then
      match (ParseField(parts[0]), ParseField(parts[1]), ParseField(parts[2]))
      case (Some(h), Some(m), Some(sec)) => Some(h * 3600 + m * 60 + sec)
      case _ => None
    else None
  }

  lemma NumeralHasNoColon(s: string)
    requires Text.IsNumeral(s, 10)
    ensures ':' !in s
  {
  }

  /** `n.toString()` is a field that reads back as n. */
  lemma PlainField(n: nat)
    ensures ':' !in Text.NatToString(n)
    ensures ParseField(Text.NatToString(n)) == Some(n)
  {
    Text.ParseNatToRadix(n, 10);
    NumeralHasNoColon(Text.NatToString(n));
  }

  /** `n.toString().padStart(2, "0")` for n < 100 is two digits that read back as n. */
  lemma PaddedField(n: nat)
    requires n < 100
    ensures |Text.PadStart(Text.NatToString(n), 2, '0')| == 2
    ensures ':' !in Text.PadStart(Text.NatToString(n), 2, '0')
    ensures ParseField(Text.PadStart(Text.NatToString(n), 2, '0')) == Some(n)
  {
    var s := Text.NatToString(n);
    var p := Text.PadStart(s, 2, '0');
    ShortDecimal(n);
    Text.ParseNatToRadix(n, 10);
    Text.ParseLeadingZeros(2 - |s|, s, 10);
    NumeralHasNoColon(p);
  }

  lemma ShortDecimal(n: nat)
    requires n < 100
    ensures |Text.NatToString(n)| <= 2
  {
    if n >= 10 {
      Text.DivStep(n, 10);
      assert n / 10 < 10;
    }
  }

  lemma SplitTwo(a: string, b: string)
    requires ':' !in a && ':' !in b
    ensures Text.Split(a + ":" + b, ':') == [a, b]
  {
    Text.SplitAtSeparator(a, ':', b);
    Text.SplitNoSeparator(b, ':');
  }

  lemma SplitThree(a: string, b: string, c: string)
    requires ':' !in a && ':' !in b && ':' !in c
    ensures Text.Split(a + ":" + b + ":" + c, ':') == [a, b, c]
  {
    assert a + ":" + b + ":" + c == a + [':'] + (b + ":" + c);
    Text.SplitAtSeparator(a, ':', b + ":" + c);
    SplitTwo(b, c);
  }

  /** How whole seconds split into hours, minutes and seconds. */
  lemma ClockArithmetic(t: nat)
    ensures t == (t / 3600) * 3600 + ((t % 3600) / 60) * 60 + t % 60
    ensures (t % 3600) / 60 < 60
    ensures t < 3600 ==> (t % 3600) / 60 == t / 60
  {
    var h, r := t / 3600, t % 3600;
    var m, s := r / 60, r % 60;
    assert t == 3600 * h + r;
    assert r == 60 * m + s;
    assert t == 60 * (t / 60) + t % 60;
    var k := t / 60 - 60 * h - m;
    assert 60 * k == s - t % 60;
    assert s == t % 60;
  }

  lemma ClockHourForm(h: nat, m: nat, s: nat, t: nat)
    requires 1 <= h && m < 60 && s < 60 && t == h * 3600 + m * 60 + s
    ensures var parts := Text.Split(FormatClock(h, m, s), ':');
      && parts == [Text.NatToString(h), Text.PadStart(Text.NatToString(m), 2, '0'), Text.PadStart(Text.NatToString(s), 2, '0')]
      && |parts[1]| == 2 && |parts[2]| == 2
      && ParseDuration(FormatClock(h, m, s)) == Some(t)
  {
    var hs := Text.NatToString(h);
    var pm := Text.PadStart(Text.NatToString(m), 2, '0');
    var ps := Text.PadStart(Text.NatToString(s), 2, '0');
    PaddedField(s);
    PaddedField(m);
    PlainField(h);
    SplitThree(hs, pm, ps);
    ParseThreeFields(FormatClock(h, m, s), hs, pm, ps, h, m, s, t);
  }

  lemma ParseThreeFields(f: string, a: string, b: string, c: string, h: nat, m: nat, s: nat, t: nat)
    requires Text.Split(f, ':') == [a, b, c] && t == h * 3600 + m * 60 + s
    requires ParseField(a) == Some(h) && ParseField(b) == Some(m) && ParseField(c) == Some(s)
    ensures ParseDuration(f) == Some(t)
  {
  }

  lemma ClockShortForm(m: nat, s: nat, t: nat)
    requires s < 60 && t == m * 60 + s
    ensures var parts := Text.Split(FormatClock(0, m, s), ':');
      && parts == [Text.NatToString(m), Text.PadStart(Text.NatToString(s), 2, '0')]
      && |parts[1]| == 2
      && ParseDuration(FormatClock(0, m, s)) == Some(t)
  {
    var ms := Text.NatToString(m);
    var ps := Text.PadStart(Text.NatToString(s), 2, '0');
    PaddedField(s);
    PlainField(m);
    SplitTwo(ms, ps);
    ParseTwoFields(FormatClock(0, m, s), ms, ps, m, s, t);
  }

  lemma ParseTwoFields(f: string, a: string, b: string, m: nat, s: nat, t: nat)
    requires Text.Split(f, ':') == [a, b] && t == m * 60 + s
    requires ParseField(a) == Some(m) && ParseField(b) == Some(s)
    ensures ParseDuration(f) == Some(t)
  {
  }

  /** The hour form for whole seconds t: the clock fields of t read back as t. */
  lemma ClockOfSeconds(t: nat)
    requires t >= 3600
    ensures var parts := Text.Split(FormatClock(t / 3600, (t % 3600) / 60, t % 60), ':');
      && |parts| == 3 && parts[0] == Text.NatToString(t / 3600) && |parts[1]| == 2 && |parts[2]| == 2
      && ParseDuration(FormatClock(t / 3600, (t % 3600) / 60, t % 60)) == Some(t)
  {
    var h, m, s := t / 3600, (t % 3600) / 60, t % 60;
    ClockArithmetic(t);
    ClockHourForm(h, m, s, t);
  }

  lemma FormatMsHour(ms: nat)
    requires ms / 1000 >= 3600
    ensures var parts := Text.Split(FormatMs(ms), ':'); var t := ms / 1000;
      && |parts| == 3 && parts[0] == Text.NatToString(t / 3600) && |parts[1]| == 2 && |parts[2]| == 2
      && ParseDuration(FormatMs(ms)) == Some(t)
  {
    ClockOfSeconds(ms / 1000);
  }

  lemma FormatMsShort(ms: nat)
    requires ms / 1000 < 3600
    ensures var parts := Text.Split(FormatMs(ms), ':'); var t := ms / 1000;
      && |parts| == 2 && parts[0] == Text.NatToString(t / 60) && |parts[1]| == 2
      && ParseDuration(FormatMs(ms)) == Some(t)
  {
    var t := ms / 1000;
    var m, s := t / 60, t % 60;
    ClockArithmetic(t);
    assert t / 3600 == 0 && (t % 3600) / 60 == m;
    assert FormatMs(ms) == FormatClock(0, m, s);
    ClockShortForm(m, s, t);
  }

  /**
   * The fields of `formatMs`: three fields exactly from one hour on; seconds
   * always two digits; minutes two digits in the hour form; hours and the
   * short form's minutes printed without padding; and together they read
   * back as the whole seconds.
   */
  lemma FormatMsFields(ms: nat)
    ensures var parts := Text.Split(FormatMs(ms), ':'); var t := ms / 1000;
      && (|parts| == 2 || |parts| == 3)
      && (|parts| == 3 <==> t >= 3600)
      && |parts[|parts| - 1]| == 2
      && (|parts| == 3 ==> parts[0] == Text.NatToString(t / 3600) && |parts[1]| == 2)
      && (|parts| == 2 ==> parts[0] == Text.NatToString(t / 60))
      && ParseDuration(FormatMs(ms)) == Some(t)
  {
    if ms / 1000 >= 3600 {
      FormatMsHour(ms);
    } else {
      FormatMsShort(ms);
    }
  }

  /** The clock fields are the unique hours, minutes below 60 and seconds below 60 that make up the whole seconds. */
  lemma FormatMsOfClock(ms: nat, h: nat, m: nat, s: nat)
    requires m < 60 && s < 60 && ms / 1000 == h * 3600 + m * 60 + s
    ensures FormatMs(ms) == FormatClock(h, m, s)
  {
    var t := ms / 1000;
    DivUnique3600(t, h, m * 60 + s);
    DivUnique60(m * 60 + s, m, s);
    DivUnique60(t, h * 60 + m, s);
  }

  lemma DivUnique3600(t: nat, q: nat, r: nat)
    requires r < 3600 && t == q * 3600 + r
    ensures t / 3600 == q && t % 3600 == r
  {
  }

  lemma DivUnique60(t: nat, q: nat, r: nat)
    requires r < 60 && t == q * 60 + r
    ensures t / 60 == q && t % 60 == r
  {
  }

  /** A single digit prints as itself, and padded to two with a leading zero. */
  lemma PaddedDigit(d: nat)
    requires d < 10
    ensures Text.NatToString(d) == [Text.DigitChar(d)]
    ensures Text.PadStart(Text.NatToString(d), 2, '0') == ['0', Text.DigitChar(d)]
  {
    assert Text.PadStart([Text.DigitChar(d)], 2, '0') == Text.PadStart(['0', Text.DigitChar(d)], 2, '0');
  }

  lemma ClockExamplesShort()
    ensures FormatClock(0, 0, 0) == "0:00"
    ensures FormatClock(0, 1, 5) == "1:05"
  {
    PaddedDigit(0);
    PaddedDigit(1);
    PaddedDigit(5);
  }

  lemma ClockExamplesHour()
    ensures FormatClock(1, 0, 0) == "1:00:00"
    ensures FormatClock(1, 1, 1) == "1:01:01"
  {
    ClockOfDigits(1, 0, 0);
    ClockOfDigits(1, 1, 1);
  }

  /** The hour form of single-digit fields. */
  lemma ClockOfDigits(h: nat, m: nat, s: nat)
    requires 1 <= h < 10 && m < 10 && s < 10
    ensures FormatClock(h, m, s) == [Text.DigitChar(h), ':', '0', Text.DigitChar(m), ':', '0', Text.DigitChar(s)]
  {
    PaddedDigit(h);
    PaddedDigit(m);
    PaddedDigit(s);
  }

  /** Worked examples of `formatMs`. */
  lemma FormatMsExamples()
    ensures FormatMs(0) == "0:00"
    ensures FormatMs(65000) == "1:05"
    ensures FormatMs(3600000) == "1:00:00"
    ensures FormatMs(3661000) == "1:01:01"
  {
    ClockExamplesShort();
    ClockExamplesHour();
    FormatMsOfClock(0, 0, 0, 0);
    FormatMsOfClock(65000, 0, 1, 5);
    FormatMsOfClock(3600000, 1, 0, 0);
    FormatMsOfClock(3661000, 1, 1, 1);
  }

  // ---------------------------------------------------------------- links and paths

  /** `parsePlayingAsWikilink(playing, embed, blockId)`. */
  function ParsePlayingAsWikilink(id: string, name: string, embed: bool, blockId: string): (r: string)
    ensures Wikilinks.WellFormed(Wikilinks.Wikilink(embed, id, blockId, name)) ==>
      Wikilinks.Parse(r) == Some(Wikilinks.Wikilink(embed, id, blockId, name))
  {
    var w := Wikilinks.Wikilink(embed, id, blockId, name);
    if Wikilinks.WellFormed(w) then Wikilinks.ParseRender(w); Wikilinks.Render(w)
    else Wikilinks.Render(w)
  }

  /** The path before `normalizePath`: "{folder}/{id}.md". */
  function RawFilePath(folderPath: string, id: string): (r: string)
    ensures |r| == |folderPath| + |id| + 4
    ensures r[..|folderPath| + 1] == folderPath + "/"
    ensures r[|folderPath| + 1..|r| - 3] == id
    ensures r[|r| - 3..] == ".md"
  {
    folderPath + "/" + id + ".md"
  }

  /** Within one folder different ids name different raw paths. */
  lemma RawFilePathInjective(folderPath: string, id1: string, id2: string)
    requires RawFilePath(folderPath, id1) == RawFilePath(folderPath, id2)
    ensures id1 == id2
  {
    var r := RawFilePath(folderPath, id1);
    assert id1 == r[|folderPath| + 1..|r| - 3];
  }

  /** `getFilePath`: `normalizePath` applied to the raw path. */
  function GetFilePath(normalizePath: string -> string, folderPath: string, id: string): string
  {
    normalizePath(RawFilePath(folderPath, id))
  }

  /** When the normaliser merges no two paths, different ids in one folder get different notes. */
  lemma GetFilePathInjective(normalizePath: string -> string, folderPath: string, id1: string, id2: string)
    requires forall a, b :: normalizePath(a) == normalizePath(b) ==> a == b
    requires GetFilePath(normalizePath, folderPath, id1) == GetFilePath(normalizePath, folderPath, id2)
    ensures id1 == id2
  {
    RawFilePathInjective(folderPath, id1, id2);
  }

  /** `nowPlayingAsString`: "{artists} - {name}". */
  function NowPlayingAsString(artists: string, name: string): (r: string)
    ensures |r| == |artists| + 3 + |name|
    ensures r[..|artists|] == artists && r[|artists|..|artists| + 3] == " - " && r[|artists| + 3..] == name
  {
    artists + " - " + name
  }

  // ---------------------------------------------------------------- local track ids

  predicate IsLowerHex(s: string) {
    forall i :: 0 <= i < |s| ==> '0' <= s[i] <= '9' || 'a' <= s[i] <= 'f'
  }

  /** `b.toString(16).padStart(2, "0")`. */
  function HexByte(b: Byte): (r: string)
    ensures |r| == 2 && Text.IsNumeral(r, 16) && Text.ParseRadix(r, 16) == b
  {
    var s := Text.NatToRadix(b, 16);
    ShortHex(b);
    Text.ParseNatToRadix(b, 16);
    Text.ParseLeadingZeros(2 - |s|, s, 16);
    Text.PadStart(s, 2, '0')
  }

  lemma ShortHex(b: Byte)
    ensures |Text.NatToRadix(b, 16)| <= 2
  {
    if b >= 16 {
      Text.DivStep(b, 16);
      assert b / 16 < 16;
    }
  }

  /** The hex digits of every byte, joined. */
  function HexBytes(bytes: seq<Byte>): (r: string)
    ensures |r| == 2 * |bytes| && Text.IsNumeral(r, 16)
  {
    if bytes == [] then "" else HexByte(bytes[0]) + HexBytes(bytes[1..])
  }

  /** Reads pairs of hex digits back as bytes. */
  function DecodeHex(s: string): (r: seq<nat>)
    requires Text.IsNumeral(s, 16)
    ensures |r| == |s| / 2
  {
    if |s| < 2 then [] else [Text.ParseRadix(s[..2], 16)] + DecodeHex(s[2..])
  }

  lemma IsNumeralHex(s: string)
    requires Text.IsNumeral(s, 16)
    ensures IsLowerHex(s)
  {
    forall i | 0 <= i < |s| ensures '0' <= s[i] <= '9' || 'a' <= s[i] <= 'f' {
      assert 0 <= Text.DigitOf(s[i]);
    }
  }

  lemma NumeralPrefix(s: string, k: nat)
    requires Text.IsNumeral(s, 16) && k <= |s|
    ensures Text.IsNumeral(s[..k], 16)
  {
    forall i | 0 <= i < k ensures 0 <= Text.DigitOf(s[..k][i]) < 16 {
      assert s[..k][i] == s[i];
    }
  }

  /** The hex and truncate part of `generateIDFromTrack`: the first 22 hex digits of the digest. */
  function HexId(digest: seq<Byte>): (r: string)
    ensures |r| == if 2 * |digest| < 22 then 2 * |digest| else 22
    ensures IsLowerHex(r) && Text.IsNumeral(r, 16)
    ensures r <= HexBytes(digest)
  {
    var h := HexBytes(digest);
    var r := if |h| < 22 then h else h[..22];
    NumeralPrefix(h, |r|);
    IsNumeralHex(r);
    r
  }

  lemma {:induction false} DecodeHexBytes(bytes: seq<Byte>)
    ensures DecodeHex(HexBytes(bytes)) == bytes
  {
    if bytes != [] {
      var h := HexBytes(bytes);
      var rest := HexBytes(bytes[1..]);
      DecodeHexBytes(bytes[1..]);
      assert h[..2] == HexByte(bytes[0]);
      assert h[2..] == rest;
      calc {
        DecodeHex(h);
        [Text.ParseRadix(h[..2], 16)] + DecodeHex(h[2..]);
        [bytes[0] as nat] + DecodeHex(rest);
        [bytes[0] as nat] + bytes[1..];
      }
      assert bytes == [bytes[0]] + bytes[1..];
    }
  }

  lemma {:induction false} DecodeHexPrefix(s: string, k: nat)
    requires Text.IsNumeral(s, 16) && 2 * k <= |s|
    ensures DecodeHex(s[..2 * k]) == DecodeHex(s)[..k]
  {
    if k > 0 {
      DecodeHexPrefix(s[2..], k - 1);
      assert s[..2 * k][..2] == s[..2];
      assert s[..2 * k][2..] == s[2..][..2 * (k - 1)];
    }
  }

  /**
   * The id of a local track holds the first 11 bytes of the digest: decoding
   * its 22 hex digits gives them back.
   */
  lemma HexIdRoundTrip(digest: seq<Byte>)
    requires |digest| >= 11
    ensures |HexId(digest)| == 22
    ensures DecodeHex(HexId(digest)) == digest[..11]
  {
    var h := HexBytes(digest);
    DecodeHexBytes(digest);
    DecodeHexPrefix(h, 11);
    assert HexId(digest) == h[..2 * 11];
  }

  /**
   * `generateIDFromTrack`: the hex id of the SHA-256 digest of
   * "{artists} - {name}", so it depends on nothing else of the track.
   */
  function IdFromTrack(sha256: string -> seq<Byte>, track: Items.Track): (r: string)
    ensures Text.IsNumeral(r, 16)
    ensures |sha256(NowPlayingAsString(track.artists, track.name))| >= 11 ==>
      |r| == 22 && DecodeHex(r) == sha256(NowPlayingAsString(track.artists, track.name))[..11]
  {
    var digest := sha256(NowPlayingAsString(track.artists, track.name));
    if |digest| >= 11 then HexIdRoundTrip(digest); HexId(digest)
    else HexId(digest)
  }
}
