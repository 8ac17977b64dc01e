/**
 * String helpers that the plugin gets from JavaScript's standard library:
 * Number.prototype.toString(radix), String.prototype.padStart, split, join,
 * includes and toLowerCase.
 */
module Text {

  import opened Wrappers

  /** Value of a digit character of a radix-16-or-less numeral, or -1. */
  function DigitOf(c: char): int {
    if '0' <= c <= '9' then c as int - '0' as int
    else if 'a' <= c <= 'f' then c as int - 'a' as int + 10
    else -1
  }

  /** The character JavaScript prints for digit d (lower-case above 9). */
  function DigitChar(d: nat): (c: char)
    requires d < 16
    ensures DigitOf(c) == d
  {
    if d < 10 then (d + '0' as int) as char else (d - 10 + 'a' as int) as char
  }

  predicate IsNumeral(s: string, radix: nat) {
    forall i :: 0 <= i < |s| ==> 0 <= DigitOf(s[i]) < radix
  }

  /** `n.toString(radix)` for a non-negative integer (decimal or hexadecimal): no sign, no leading zero. */
  function NatToRadix(n: nat, radix: nat): (r: string)
    requires radix == 10 || radix == 16
    ensures |r| >= 1 && IsNumeral(r, radix)
    ensures |r| > 1 ==> r[0] != '0'
    ensures n < radix <==> |r| == 1
    decreases n
  {
    if n < radix then [DigitChar(n)]
    else
      DivStep(n, radix);
      NatToRadix(n / radix, radix) + [DigitChar(n % radix)]
  }

  lemma DivStep(n: nat, radix: nat)
    requires radix == 10 || radix == 16
    requires radix <= n
    ensures 1 <= n / radix < n
  {
  }

  /** `n.toString()`. */
  function NatToString(n: nat): string {
    NatToRadix(n, 10)
  }

  /** The value of a numeral read most-significant digit first. */
  function ParseRadix(s: string, radix: nat): nat
    requires IsNumeral(s, radix)
  {
    if s == [] then 0
    else ParseRadix(s[..|s| - 1], radix) * radix + DigitOf(s[|s| - 1])
  }

  lemma {:induction false} ParseNatToRadix(n: nat, radix: nat)
    requires radix == 10 || radix == 16
    ensures ParseRadix(NatToRadix(n, radix), radix) == n
  {
    var s := NatToRadix(n, radix);
    if n >= radix {
      DivStep(n, radix);
      var hi := NatToRadix(n / radix, radix);
      assert s[..|s| - 1] == hi;
      ParseNatToRadix(n / radix, radix);
    }
  }

  /** n copies of c. */
  function Repeat(c: char, n: nat): (r: string)
    ensures |r| == n
    ensures forall i :: 0 <= i < n ==> r[i] == c
  {
    if n == 0 then [] else [c] + Repeat(c, n - 1)
  }

  /** Leading zeros do not change the value of a numeral. */
  lemma {:induction false} ParseLeadingZeros(k: nat, s: string, radix: nat)
    requires 2 <= radix && IsNumeral(s, radix)
    ensures IsNumeral(Repeat('0', k) + s, radix)
    ensures ParseRadix(Repeat('0', k) + s, radix) == ParseRadix(s, radix)
  {
    var z := Repeat('0', k);
    if s == [] {
      assert z + s == z;
      ZerosParseToZero(k, radix);
    } else {
      var init := s[..|s| - 1];
      ParseLeadingZeros(k, init, radix);
      assert (z + s)[..|z + s| - 1] == z + init;
    }
  }

  lemma {:induction false} ZerosParseToZero(k: nat, radix: nat)
    requires 2 <= radix
    ensures IsNumeral(Repeat('0', k), radix)
    ensures ParseRadix(Repeat('0', k), radix) == 0
  {
    if k > 0 {
      var z := Repeat('0', k);
      ZerosParseToZero(k - 1, radix);
      assert z[..k - 1] == Repeat('0', k - 1);
    }
  }

  /** `s.padStart(width, fill)` with a one-character fill string. */
  function PadStart(s: string, width: nat, fill: char): (r: string)
    ensures |r| == if |s| < width then width else |s|
    ensures r == Repeat(fill, |r| - |s|) + s
    decreases width - |s|
  {
    if |s| >= width then s else PadStart([fill] + s, width, fill)
  }

  /** `s.split(sep)` for a one-character separator. */
  function Split(s: string, sep: char): (r: seq<string>)
    ensures |r| >= 1
  {
    if s == [] then [""]
    else if s[0] == sep then [""] + Split(s[1..], sep)
    else
      var rest := Split(s[1..], sep);
      [[s[0]] + rest[0]] + rest[1..]
  }

  lemma {:induction false} SplitNoSeparator(s: string, sep: char)
    requires sep !in s
    ensures Split(s, sep) == [s]
  {
    if s != [] {
      SplitNoSeparator(s[1..], sep);
      assert [s[0]] + s[1..] == s;
    }
  }

  lemma {:induction false} SplitAtSeparator(a: string, sep: char, b: string)
    requires sep !in a
    ensures Split(a + [sep] + b, sep) == [a] + Split(b, sep)
  {
    if a == [] {
      assert a + [sep] + b == [sep] + b;
      assert ([sep] + b)[1..] == b;
    } else {
      SplitAtSeparator(a[1..], sep, b);
      assert (a + [sep] + b)[1..] == a[1..] + [sep] + b;
      assert [a[0]] + a[1..] == a;
    }
  }

  /** `xs.join(sep)`. */
  function Join(xs: seq<string>, sep: string): string {
    if |xs| == 0 then ""
    else if |xs| == 1 then xs[0]
    else xs[0] + sep + Join(xs[1..], sep)
  }

  /** Where element i of xs starts in `Join(xs, sep)`. */
  function JoinOffset(xs: seq<string>, sep: string, i: nat): nat
    requires i <= |xs|
  {
    if i == 0 then 0 else JoinOffset(xs, sep, i - 1) + |xs[i - 1]| + |sep|
  }

  lemma {:induction false} JoinOffsetTail(xs: seq<string>, sep: string, i: nat)
    requires 0 < i <= |xs|
    ensures JoinOffset(xs, sep, i) == |xs[0]| + |sep| + JoinOffset(xs[1..], sep, i - 1)
  {
    if i > 1 {
      JoinOffsetTail(xs, sep, i - 1);
    }
  }

  lemma {:induction false} JoinOffsetMonotone(xs: seq<string>, sep: string, i: nat, j: nat)
    requires i <= j <= |xs|
    ensures JoinOffset(xs, sep, i) <= JoinOffset(xs, sep, j)
    decreases j
  {
    if i < j {
      JoinOffsetMonotone(xs, sep, i, j - 1);
    }
  }

  lemma {:induction false} JoinLength(xs: seq<string>, sep: string)
    requires |xs| >= 1
    ensures |Join(xs, sep)| + |sep| == JoinOffset(xs, sep, |xs|)
  {
    if |xs| > 1 {
      JoinLength(xs[1..], sep);
      JoinOffsetTail(xs, sep, |xs|);
    }
  }

  /** Join puts element i of xs at JoinOffset(i), in order. */
  lemma {:induction false} JoinElement(xs: seq<string>, sep: string, i: nat)
    requires i < |xs|
    ensures JoinOffset(xs, sep, i) + |xs[i]| <= |Join(xs, sep)|
    ensures Join(xs, sep)[JoinOffset(xs, sep, i)..JoinOffset(xs, sep, i) + |xs[i]|] == xs[i]
  {
    if i == 0 {
      JoinFirst(xs, sep);
    } else {
      JoinElement(xs[1..], sep, i - 1);
      JoinElementOfTail(xs, sep, i);
    }
  }

  lemma JoinFirst(xs: seq<string>, sep: string)
    requires |xs| >= 1
    ensures |xs[0]| <= |Join(xs, sep)| && Join(xs, sep)[..|xs[0]|] == xs[0]
  {
    if |xs| > 1 {
      assert Join(xs, sep) == xs[0] + (sep + Join(xs[1..], sep));
    }
  }

  /** Element i of xs sits in Join(xs) where element i - 1 of the tail sits in the tail's join, shifted by the head. */
  lemma JoinElementOfTail(xs: seq<string>, sep: string, i: nat)
    requires 0 < i < |xs|
    requires var o := JoinOffset(xs[1..], sep, i - 1);
      o + |xs[i]| <= |Join(xs[1..], sep)| && Join(xs[1..], sep)[o..o + |xs[i]|] == xs[i]
    ensures JoinOffset(xs, sep, i) + |xs[i]| <= |Join(xs, sep)|
    ensures Join(xs, sep)[JoinOffset(xs, sep, i)..JoinOffset(xs, sep, i) + |xs[i]|] == xs[i]
  {
    var jt := Join(xs[1..], sep);
    JoinOffsetTail(xs, sep, i);
    assert Join(xs, sep) == (xs[0] + sep) + jt;
    var h, o := |xs[0]| + |sep|, JoinOffset(xs[1..], sep, i - 1);
    SliceOfSecond(xs[0] + sep, jt, h + o, h + o + |xs[i]|);
  }

  /** Between element i and element i + 1 Join puts exactly the separator. */
  lemma {:induction false} JoinSeparator(xs: seq<string>, sep: string, i: nat)
    requires i + 1 < |xs|
    ensures JoinOffset(xs, sep, i + 1) <= |Join(xs, sep)|
    ensures Join(xs, sep)[JoinOffset(xs, sep, i) + |xs[i]|..JoinOffset(xs, sep, i + 1)] == sep
  {
    if i == 0 {
      JoinFirstSeparator(xs, sep);
    } else {
      JoinSeparator(xs[1..], sep, i - 1);
      JoinSeparatorOfTail(xs, sep, i);
    }
  }

  lemma JoinFirstSeparator(xs: seq<string>, sep: string)
    requires |xs| >= 2
    ensures |xs[0]| + |sep| <= |Join(xs, sep)| && Join(xs, sep)[|xs[0]|..|xs[0]| + |sep|] == sep
  {
    assert Join(xs, sep) == xs[0] + sep + Join(xs[1..], sep);
  }

  /** The separator after element i of xs sits where the tail's separator after its element i - 1 sits, shifted by the head. */
  lemma JoinSeparatorOfTail(xs: seq<string>, sep: string, i: nat)
    requires 0 < i && i + 1 < |xs|
    requires JoinOffset(xs[1..], sep, i) <= |Join(xs[1..], sep)|
    requires Join(xs[1..], sep)[JoinOffset(xs[1..], sep, i - 1) + |xs[i]|..JoinOffset(xs[1..], sep, i)] == sep
    ensures JoinOffset(xs, sep, i + 1) <= |Join(xs, sep)|
    ensures Join(xs, sep)[JoinOffset(xs, sep, i) + |xs[i]|..JoinOffset(xs, sep, i + 1)] == sep
  {
    var jt := Join(xs[1..], sep);
    JoinOffsetTail(xs, sep, i);
    JoinOffsetTail(xs, sep, i + 1);
    assert Join(xs, sep) == (xs[0] + sep) + jt;
    var h, o := |xs[0]| + |sep|, JoinOffset(xs[1..], sep, i - 1) + |xs[i]|;
    JoinOffsetMonotone(xs[1..], sep, i - 1, i);
    SliceOfSecond(xs[0] + sep, jt, h + o, h + JoinOffset(xs[1..], sep, i));
  }

  /** A slice that lies in the second part of a concatenation is a slice of that part. */
  lemma SliceOfSecond(a: string, b: string, lo: nat, hi: nat)
    requires |a| <= lo <= hi <= |a| + |b|
    ensures (a + b)[lo..hi] == b[lo - |a|..hi - |a|]
  {
  }

  /** Splitting a join at a separator that no element contains gives the elements back. */
  lemma {:induction false} SplitJoin(xs: seq<string>, sep: char)
    requires |xs| >= 1
    requires forall i :: 0 <= i < |xs| ==> sep !in xs[i]
    ensures Split(Join(xs, [sep]), sep) == xs
  {
    if |xs| == 1 {
      SplitNoSeparator(xs[0], sep);
    } else {
      SplitJoin(xs[1..], sep);
      SplitAtSeparator(xs[0], sep, Join(xs[1..], [sep]));
      assert [xs[0]] + xs[1..] == xs;
    }
  }

  /** `s.includes(t)`. */
  predicate Includes(s: string, t: string)
    decreases |s|
  {
    if |t| > |s| then false
    else s[..|t|] == t || (|s| > 0 && Includes(s[1..], t))
  }

  /** t occurs in s starting at index i. */
  predicate OccursAt(s: string, t: string, i: int) {
    0 <= i <= |s| - |t| && s[i..i + |t|] == t
  }

  /** Includes is substring search: it holds exactly when t occurs somewhere in s. */
  lemma {:induction false} IncludesIff(s: string, t: string)
    ensures Includes(s, t) <==> exists i :: OccursAt(s, t, i)
    decreases |s|
  {
    if |t| <= |s| {
      if s[..|t|] == t {
        assert OccursAt(s, t, 0);
      } else if |s| > 0 {
        IncludesIff(s[1..], t);
        if Includes(s[1..], t) {
          var i :| OccursAt(s[1..], t, i);
          assert s[i + 1..i + 1 + |t|] == s[1..][i..i + |t|];
          assert OccursAt(s, t, i + 1);
        }
        if exists i :: OccursAt(s, t, i) {
          var i :| OccursAt(s, t, i);
          assert i != 0;
          assert s[1..][i - 1..i - 1 + |t|] == s[i..i + |t|];
          assert OccursAt(s[1..], t, i - 1);
        }
      }
    }
  }

  /** `c.toLowerCase()` on the ASCII letters; other characters are kept. */
  function LowerChar(c: char): char {
    if 'A' <= c <= 'Z' then (c as int - 'A' as int + 'a' as int) as char else c
  }

  function ToLower(s: string): (r: string)
    ensures |r| == |s|
    ensures forall i :: 0 <= i < |s| ==> r[i] == LowerChar(s[i])
  {
    if s == [] then [] else [LowerChar(s[0])] + ToLower(s[1..])
  }

  lemma ToLowerIdempotent(s: string)
    ensures ToLower(ToLower(s)) == ToLower(s)
  {
  }

  /** `xs.indexOf(x)`: the first index holding x, or -1. */
  function IndexOf<T(==)>(xs: seq<T>, x: T): (k: int)
    ensures -1 <= k < |xs|
    ensures k == -1 <==> x !in xs
    ensures k >= 0 ==> xs[k] == x && x !in xs[..k]
  {
    if |xs| == 0 then -1
    else if xs[0] == x then 0
    else
      var k := IndexOf(xs[1..], x);
      if k == -1 then -1
      else
        assert xs[..k + 1] == [xs[0]] + xs[1..][..k];
        k + 1
  }

  lemma {:induction false} IndexOfAfterPrefix(a: string, c: char, b: string)
    requires c !in a
    ensures IndexOf(a + [c] + b, c) == |a|
  {
    if a != [] {
      IndexOfAfterPrefix(a[1..], c, b);
      assert (a + [c] + b)[1..] == a[1..] + [c] + b;
    }
  }

  /** The longest prefix of s made of decimal digits. */
  function LeadingDigits(s: string): (r: string)
    ensures IsNumeral(r, 10) && r <= s
  {
    if s == [] || !(0 <= DigitOf(s[0]) < 10) then "" else [s[0]] + LeadingDigits(s[1..])
  }

  /**
   * `parseInt(s)` on a string that has no sign and no leading white space:
   * the value of its leading decimal digits, or None (NaN) if there are none.
   */
  function ParseInt(s: string): Option<nat> {
    var digits := LeadingDigits(s);
    if digits == "" then None else Some(ParseRadix(digits, 10))
  }

  lemma {:induction false} LeadingDigitsOfNumeral(s: string)
    requires IsNumeral(s, 10)
    ensures LeadingDigits(s) == s
  {
    if s != [] {
      LeadingDigitsOfNumeral(s[1..]);
      assert [s[0]] + s[1..] == s;
    }
  }

  /** parseInt reads back what toString printed. */
  lemma ParseIntOfNatToString(n: nat)
    ensures ParseInt(NatToString(n)) == Some(n)
  {
    LeadingDigitsOfNumeral(NatToString(n));
    ParseNatToRadix(n, 10);
  }
}
