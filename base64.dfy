/**
 * Base 64 encoding as section 4 of RFC 4648 defines it (what `btoa` produces
 * from a string of byte-valued characters) and the URL- and filename-safe
 * variant of section 5 with the padding left off, which section 4.2 of
 * RFC 7636 requires for an S256 code challenge.
 */
module Base64 {
  import Text

  type Byte = b: nat | b < 256

  predicate IsAlnum(c: char) {
    'A' <= c <= 'Z' || 'a' <= c <= 'z' || '0' <= c <= '9'
  }

  /** Character d of "ABC…XYZabc…xyz012…789". */
  function AlnumChar(d: nat): (c: char)
    requires d < 62
    ensures IsAlnum(c)
  {
    if d < 26 then (d + 'A' as int) as char
    else if d < 52 then (d - 26 + 'a' as int) as char
    else (d - 52 + '0' as int) as char
  }

  /** The 62 letters and digits, upper case first, then lower case, then digits. */
  function AlnumAlphabet(): (r: string)
    ensures |r| == 62 && forall i :: 0 <= i < 62 ==> r[i] == AlnumChar(i)
  {
    seq(62, i requires 0 <= i < 62 => AlnumChar(i))
  }

  const Alphanumerics: string := AlnumAlphabet()

  /** Table 1 of RFC 4648. */
  const StandardAlphabet: string := Alphanumerics + "+/"

  /** Table 2 of RFC 4648. */
  const UrlAlphabet: string := Alphanumerics + "-_"

  /** The characters of an alphabet at the given indices. */
  function Chars(alphabet: string, ds: seq<nat>): (r: string)
    requires forall i :: 0 <= i < |ds| ==> ds[i] < |alphabet|
    ensures |r| == |ds|
    ensures forall i :: 0 <= i < |ds| ==> r[i] == alphabet[ds[i]]
  {
    if ds == [] then "" else [alphabet[ds[0]]] + Chars(alphabet, ds[1..])
  }

  /**
   * The 6-bit groups of one input group of 1 to 3 bytes: the bytes are
   * zero-filled on the right to a whole number of 6-bit groups.
   */
  function Sextets(chunk: seq<Byte>): (ds: seq<nat>)
    requires 1 <= |chunk| <= 3
    ensures |ds| == |chunk| + 1
    ensures forall i :: 0 <= i < |ds| ==> ds[i] < 64
  {
    var b0 := chunk[0];
    var b1 := if |chunk| > 1 then chunk[1] else 0;
    var b2 := if |chunk| > 2 then chunk[2] else 0;
    [b0 / 4, b0 % 4 * 16 + b1 / 16, b1 % 16 * 4 + b2 / 64, b2 % 64][..|chunk| + 1]
  }

  /** Encodes the bytes three at a time into four characters, padding the last group if asked. */
  function Encode(alphabet: string, bytes: seq<Byte>, pad: bool): (r: string)
    requires |alphabet| == 64
    ensures forall i :: 0 <= i < |r| ==> r[i] in alphabet || (pad && r[i] == '=')
    decreases |bytes|
  {
    if |bytes| == 0 then ""
    else
      var n := if |bytes| < 3 then |bytes| else 3;
      Chars(alphabet, Sextets(bytes[..n]))
      + (if pad then Text.Repeat('=', 3 - n) else "")
      + Encode(alphabet, bytes[n..], pad)
  }

  /** `btoa(String.fromCharCode(...bytes))`: section 4 of RFC 4648, padded. */
  function Btoa(bytes: seq<Byte>): (r: string)
    ensures forall i :: 0 <= i < |r| ==> r[i] in StandardAlphabet || r[i] == '='
  {
    Encode(StandardAlphabet, bytes, true)
  }

  /** Section 5 of RFC 4648 without padding (Appendix A of RFC 7636). */
  function Base64UrlNoPadding(bytes: seq<Byte>): string {
    Encode(UrlAlphabet, bytes, false)
  }

  /** `s.replace(/c/g, "")` for a single character c. */
  function RemoveAll(s: string, c: char): (r: string)
    ensures c !in r
  {
    if s == [] then "" else (if s[0] == c then "" else [s[0]]) + RemoveAll(s[1..], c)
  }

  /** `s.replace(/a/g, b)` for single characters a and b. */
  function ReplaceAll(s: string, a: char, b: char): (r: string)
    ensures |r| == |s|
    ensures forall i :: 0 <= i < |s| ==> r[i] == if s[i] == a then b else s[i]
  {
    if s == [] then "" else [if s[0] == a then b else s[0]] + ReplaceAll(s[1..], a, b)
  }

  /** The three replace calls of `base64encode`, in their order. */
  function UrlSafe(s: string): string {
    ReplaceAll(ReplaceAll(RemoveAll(s, '='), '+', '-'), '/', '_')
  }

  lemma {:induction false} RemoveAllAppend(s: string, t: string, c: char)
    ensures RemoveAll(s + t, c) == RemoveAll(s, c) + RemoveAll(t, c)
  {
    if s != [] {
      RemoveAllAppend(s[1..], t, c);
      assert (s + t)[1..] == s[1..] + t;
    } else {
      assert s + t == t;
    }
  }

  lemma ReplaceAllAppend(s: string, t: string, a: char, b: char)
    ensures ReplaceAll(s + t, a, b) == ReplaceAll(s, a, b) + ReplaceAll(t, a, b)
  {
    var l, r := ReplaceAll(s + t, a, b), ReplaceAll(s, a, b) + ReplaceAll(t, a, b);
    assert |l| == |r|;
    forall i | 0 <= i < |l| ensures l[i] == r[i] {
      if i < |s| { assert (s + t)[i] == s[i]; } else { assert (s + t)[i] == t[i - |s|]; }
    }
  }

  lemma UrlSafeAppend(s: string, t: string)
    ensures UrlSafe(s + t) == UrlSafe(s) + UrlSafe(t)
  {
    RemoveAllAppend(s, t, '=');
    var a, b := RemoveAll(s, '='), RemoveAll(t, '=');
    ReplaceAllAppend(a, b, '+', '-');
    ReplaceAllAppend(ReplaceAll(a, '+', '-'), ReplaceAll(b, '+', '-'), '/', '_');
  }

  lemma {:induction false} UrlSafePadding(k: nat)
    ensures UrlSafe(Text.Repeat('=', k)) == ""
  {
    if k > 0 {
      UrlSafePadding(k - 1);
      UrlSafeAppend("=", Text.Repeat('=', k - 1));
      assert "="[1..] == "";
    }
  }

  /** Character d of table 1 becomes character d of table 2. */
  lemma UrlSafeChar(d: nat)
    requires d < 64
    ensures UrlSafe([StandardAlphabet[d]]) == [UrlAlphabet[d]]
  {
    var c := StandardAlphabet[d];
    assert [c][1..] == "";
    assert RemoveAll([c], '=') == (if c == '=' then "" else [c]) + RemoveAll("", '=');
    if d < 62 {
      assert c == Alphanumerics[d] == UrlAlphabet[d] == AlnumChar(d);
      assert RemoveAll([c], '=') == [c];
    } else {
      assert RemoveAll([c], '=') == [c];
    }
  }

  lemma {:induction false} UrlSafeChars(ds: seq<nat>)
    requires forall i :: 0 <= i < |ds| ==> ds[i] < 64
    ensures UrlSafe(Chars(StandardAlphabet, ds)) == Chars(UrlAlphabet, ds)
    decreases |ds|
  {
    if ds != [] {
      UrlSafeChars(ds[1..]);
      UrlSafeChar(ds[0]);
      UrlSafeAppend([StandardAlphabet[ds[0]]], Chars(StandardAlphabet, ds[1..]));
    }
  }

  /**
   * The post-processing in `base64encode` turns standard base 64 into
   * base64url without padding: the encodings of section 4 and section 5 of
   * RFC 4648 agree up to that substitution.
   */
  lemma {:induction false} UrlSafeBtoa(bytes: seq<Byte>)
    ensures UrlSafe(Btoa(bytes)) == Base64UrlNoPadding(bytes)
    decreases |bytes|
  {
    if |bytes| > 0 {
      var n := if |bytes| < 3 then |bytes| else 3;
      var ds := Sextets(bytes[..n]);
      var std, padding, rest := Chars(StandardAlphabet, ds), Text.Repeat('=', 3 - n), Btoa(bytes[n..]);
      UrlSafeChars(ds);
      UrlSafePadding(3 - n);
      UrlSafeBtoa(bytes[n..]);
      UrlSafeAppend(std, padding);
      UrlSafeAppend(std + padding, rest);
      assert Base64UrlNoPadding(bytes) == Chars(UrlAlphabet, ds) + "" + Base64UrlNoPadding(bytes[n..]);
    }
  }

  /** Unpadded base64url of n bytes has ceil(4n/3) characters. */
  lemma {:induction false} Base64UrlLength(bytes: seq<Byte>)
    ensures |Base64UrlNoPadding(bytes)| == (4 * |bytes| + 2) / 3
    decreases |bytes|
  {
    if |bytes| > 0 {
      var n := if |bytes| < 3 then |bytes| else 3;
      Base64UrlLength(bytes[n..]);
    }
  }
}
