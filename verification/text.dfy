/** The Go string primitives the request parser relies on.

    Text is a sequence of Unicode scalar values. A Go `string` is a byte
    sequence, so Go's `len` is the length of the UTF-8 encoding, which is
    written out here (section 3 of RFC 3629) as `Utf8` / `ByteLength`. */
module Text {

  newtype byte = x: int | 0 <= x < 256

  /** The ranges of characters with the Unicode White_Space property, as
      listed in the Unicode Character Database (PropList.txt). */
  const WhiteSpace: seq<(char, char)> :=
    [ ('\t', '\r'), (' ', ' '), ('\U{85}', '\U{85}'), ('\U{A0}', '\U{A0}')
    , ('\U{1680}', '\U{1680}'), ('\U{2000}', '\U{200A}'), ('\U{2028}', '\U{2029}')
    , ('\U{202F}', '\U{202F}'), ('\U{205F}', '\U{205F}'), ('\U{3000}', '\U{3000}') ]

  predicate InRanges(table: seq<(char, char)>, c: char)
  {
    exists k :: 0 <= k < |table| && table[k].0 <= c <= table[k].1
  }

  /** Go's `unicode.IsSpace`: a fixed list for Latin-1 (`\t \n \v \f \r`,
      space, U+0085, U+00A0) and a White_Space table lookup above it. */
  predicate IsSpace(c: char)
  {
    if c <= '\U{FF}' then
      || c == '\t' || c == '\n' || c == '\U{0B}' || c == '\U{0C}' || c == '\r'
      || c == ' ' || c == '\U{85}' || c == '\U{A0}'
    else
      || c == '\U{1680}' || ('\U{2000}' <= c <= '\U{200A}')
      || c == '\U{2028}' || c == '\U{2029}' || c == '\U{202F}'
      || c == '\U{205F}' || c == '\U{3000}'
  }

  /** The Latin-1 shortcut and the table lookup agree: `IsSpace` holds
      exactly for the characters with the White_Space property. */
  lemma IsSpaceIsWhiteSpace(c: char)
    ensures IsSpace(c) ==> InRanges(WhiteSpace, c)
    ensures InRanges(WhiteSpace, c) ==> IsSpace(c)
  {
    if IsSpace(c) {
      if c <= '\r' {
        assert WhiteSpace[0].0 <= c <= WhiteSpace[0].1;
      } else if c == ' ' {
        assert WhiteSpace[1].0 <= c <= WhiteSpace[1].1;
      } else if c == '\U{85}' {
        assert WhiteSpace[2].0 <= c <= WhiteSpace[2].1;
      } else if c == '\U{A0}' {
        assert WhiteSpace[3].0 <= c <= WhiteSpace[3].1;
      } else if c == '\U{1680}' {
        assert WhiteSpace[4].0 <= c <= WhiteSpace[4].1;
      } else if c <= '\U{200A}' {
        assert WhiteSpace[5].0 <= c <= WhiteSpace[5].1;
      } else if c <= '\U{2029}' {
        assert WhiteSpace[6].0 <= c <= WhiteSpace[6].1;
      } else if c == '\U{202F}' {
        assert WhiteSpace[7].0 <= c <= WhiteSpace[7].1;
      } else if c == '\U{205F}' {
        assert WhiteSpace[8].0 <= c <= WhiteSpace[8].1;
      } else {
        assert WhiteSpace[9].0 <= c <= WhiteSpace[9].1;
      }
    }
  }

  ghost predicate AllSpace(s: string)
  {
    forall k :: 0 <= k < |s| ==> IsSpace(s[k])
  }

  /** Number of space characters at the front of `s`. */
  function LeadingSpaces(s: string): (n: nat)
    ensures n <= |s|
    ensures AllSpace(s[..n])
    ensures n < |s| ==> !IsSpace(s[n])
  {
    if |s| == 0 || !IsSpace(s[0]) then 0
    else
      var m := LeadingSpaces(s[1..]);
      assert s[1..][..m] == s[1..m + 1];
      1 + m
  }

  /** Number of space characters at the back of `s`. */
  function TrailingSpaces(s: string): (n: nat)
    ensures n <= |s|
    ensures AllSpace(s[|s| - n..])
    ensures n < |s| ==> !IsSpace(s[|s| - n - 1])
  {
    if |s| == 0 || !IsSpace(s[|s| - 1]) then 0
    else
      var m := TrailingSpaces(s[..|s| - 1]);
      assert s[..|s| - 1][|s| - 1 - m..] == s[|s| - 1 - m..|s| - 1];
      1 + m
  }

  /** `r` is `s` with a maximal run of space characters cut from each end:
      `r` is a contiguous slice of `s`, everything cut is space, and `r` is
      empty or neither starts nor ends with a space. */
  ghost predicate IsTrimOf(r: string, s: string)
  {
    exists i, j :: TrimmedAt(r, s, i, j)
  }

  /** `r` is `s[i..j]`, with only space outside `i..j` and none at the
      ends of `r`. */
  ghost predicate TrimmedAt(r: string, s: string, i: int, j: int)
  {
    && 0 <= i <= j <= |s|
    && r == s[i..j]
    && AllSpace(s[..i])
    && AllSpace(s[j..])
    && Unpadded(r)
  }

  /** Empty, or neither starting nor ending with a space. */
  predicate Unpadded(s: string)
  {
    s == [] || (!IsSpace(s[0]) && !IsSpace(s[|s| - 1]))
  }

  /** Go's `strings.TrimSpace`. */
  function TrimSpace(s: string): (r: string)
    ensures IsTrimOf(r, s)
  {
    var i := LeadingSpaces(s);
    var n := TrailingSpaces(s[i..]);
    var j := |s| - n;
    assert s[i..][|s| - i - n..] == s[j..];
    CutIsTrim(s, i, j);
    s[i..j]
  }

  /** Cutting a space-only prefix `s[..i]` and a space-only suffix `s[j..]`
      that leave no space at either end of `s[i..j]` trims `s`. */
  lemma CutIsTrim(s: string, i: nat, j: nat)
    requires i <= j <= |s| && AllSpace(s[..i]) && AllSpace(s[j..])
    requires i < j ==> !IsSpace(s[i]) && !IsSpace(s[j - 1])
    ensures TrimmedAt(s[i..j], s, i, j)
  {
    assert s[i..j] == [] || (s[i..j][0] == s[i] && s[i..j][j - i - 1] == s[j - 1]);
  }

  /** The trim of a string is unique: any two results that fit the
      description of `IsTrimOf` are equal. */
  lemma {:induction false} TrimUnique(r1: string, r2: string, s: string)
    requires IsTrimOf(r1, s) && IsTrimOf(r2, s)
    ensures r1 == r2
  {
    var i1, j1 :| TrimmedAt(r1, s, i1, j1);
    var i2, j2 :| TrimmedAt(r2, s, i2, j2);
    if r1 == [] && r2 != [] {
      AllSpaceAcross(s, i1, j1, i2);
    } else if r1 != [] && r2 == [] {
      AllSpaceAcross(s, i2, j2, i1);
    } else if r1 != [] && r2 != [] {
      assert s[i1] == r1[0] && s[j1 - 1] == r1[|r1| - 1];
      assert s[i2] == r2[0] && s[j2 - 1] == r2[|r2| - 1];
      SpacePrefixEndsBefore(s, i1, i2);
      SpacePrefixEndsBefore(s, i2, i1);
      SpaceSuffixStartsAfter(s, j1, j2 - 1);
      SpaceSuffixStartsAfter(s, j2, j1 - 1);
    }
  }

  /** When the cut-off prefix and suffix meet, the whole string is space,
      so no character at position `k` can be a non-space. */
  lemma AllSpaceAcross(s: string, i: nat, j: nat, k: nat)
    requires i == j <= |s| && k < |s|
    requires AllSpace(s[..i]) && AllSpace(s[j..])
    ensures IsSpace(s[k])
  {
    if k < i { assert s[..i][k] == s[k]; } else { assert s[j..][k - j] == s[k]; }
  }

  /** A space-only prefix ends at or before the first non-space. */
  lemma SpacePrefixEndsBefore(s: string, i: nat, k: nat)
    requires i <= |s| && k < |s| && AllSpace(s[..i]) && !IsSpace(s[k])
    ensures i <= k
  {
  }

  /** A space-only suffix starts after the last non-space. */
  lemma SpaceSuffixStartsAfter(s: string, j: nat, k: nat)
    requires j <= |s| && k < |s| && AllSpace(s[j..]) && !IsSpace(s[k])
    ensures k < j
  {
  }

  /** A value with no space at either end is left as it is. */
  lemma TrimKeepsUnpadded(s: string)
    requires Unpadded(s)
    ensures TrimSpace(s) == s
  {
    assert TrimmedAt(s, s, 0, |s|) by {
      assert s == s[0..|s|] && s[..0] == [] && s[|s|..] == [];
    }
    TrimUnique(TrimSpace(s), s, s);
  }

  /** Trimming twice is trimming once. */
  lemma TrimIdempotent(s: string)
    ensures TrimSpace(TrimSpace(s)) == TrimSpace(s)
  {
    var r := TrimSpace(s);
    var i, j :| TrimmedAt(r, s, i, j);
    TrimKeepsUnpadded(r);
  }

  /** A value trims to the empty string exactly when it is all space. */
  lemma TrimEmptyIffAllSpace(s: string)
    ensures TrimSpace(s) == [] <==> AllSpace(s)
  {
    if AllSpace(s) {
      assert TrimmedAt([], s, 0, 0) by {
        assert s[..0] == [] && s[0..] == s && s[0..0] == [];
      }
      TrimUnique(TrimSpace(s), [], s);
    } else {
      var k :| 0 <= k < |s| && !IsSpace(s[k]);
      var r := TrimSpace(s);
      var i, j :| TrimmedAt(r, s, i, j);
      if r == [] { AllSpaceAcross(s, i, j, k); }
    }
  }

  /** Go's `strings.EqualFold`: equal rune by rune under Unicode simple case
      folding. `fold` maps a character to a fixed representative of its
      folding orbit (the orbit that `unicode.SimpleFold` walks). */
  predicate EqualFold(fold: char -> char, a: string, b: string)
  {
    |a| == |b| && forall i :: 0 <= i < |a| ==> fold(a[i]) == fold(b[i])
  }

  /** ASCII lower-casing: `A`..`Z` to `a`..`z`, everything else unchanged. */
  function AsciiLower(c: char): char
  {
    if 'A' <= c <= 'Z' then (c as int + 32) as char else c
  }

  function AsciiLowerString(s: string): (r: string)
    ensures |r| == |s|
  {
    seq(|s|, k requires 0 <= k < |s| => AsciiLower(s[k]))
  }

  /** What Unicode simple case folding does on ASCII: `A`..`Z` fold together
      with `a`..`z`, and no two other ASCII characters fold together.
      Characters outside ASCII are left unconstrained. */
  ghost predicate AsciiFold(fold: char -> char)
  {
    forall a: char, b: char :: a < '\U{80}' && b < '\U{80}' ==>
      (fold(a) == fold(b) <==> AsciiLower(a) == AsciiLower(b))
  }

  /** ASCII lower-casing is itself such a folding, so `AsciiFold` can be met. */
  lemma AsciiLowerIsAsciiFold()
    ensures AsciiFold(AsciiLower)
  {
  }

  /** On ASCII text, `EqualFold` under any folding that agrees with Unicode
      on ASCII is equality after lower-casing. */
  lemma EqualFoldAscii(fold: char -> char, a: string, b: string)
    requires AsciiFold(fold)
    requires forall k :: 0 <= k < |a| ==> a[k] < '\U{80}'
    requires forall k :: 0 <= k < |b| ==> b[k] < '\U{80}'
    ensures EqualFold(fold, a, b) ==> AsciiLowerString(a) == AsciiLowerString(b)
    ensures AsciiLowerString(a) == AsciiLowerString(b) ==> EqualFold(fold, a, b)
  {
    if AsciiLowerString(a) == AsciiLowerString(b) {
      forall i | 0 <= i < |a|
        ensures fold(a[i]) == fold(b[i])
      {
        assert AsciiLowerString(a)[i] == AsciiLowerString(b)[i];
      }
    }
  }

  /** The UTF-8 encoding of one character (section 3 of RFC 3629): one byte
      below U+0080, two below U+0800, three below U+10000, four above. */
  function EncodeChar(c: char): (bs: seq<byte>)
    ensures |bs| == 1 <==> c as int < 0x80
    ensures |bs| == 2 <==> 0x80 <= c as int < 0x800
    ensures |bs| == 3 <==> 0x800 <= c as int < 0x10000
    ensures |bs| == 4 <==> 0x10000 <= c as int
    ensures c as int < 0x80 ==> bs[0] as int == c as int
  {
    var cp := c as int;
    if cp < 0x80 then [cp as byte]
    else if cp < 0x800 then [(0xC0 + cp / 0x40) as byte, (0x80 + cp % 0x40) as byte]
    else if cp < 0x10000 then
      [(0xE0 + cp / 0x1000) as byte, (0x80 + (cp / 0x40) % 0x40) as byte, (0x80 + cp % 0x40) as byte]
    else
      [(0xF0 + cp / 0x40000) as byte, (0x80 + (cp / 0x1000) % 0x40) as byte,
       (0x80 + (cp / 0x40) % 0x40) as byte, (0x80 + cp % 0x40) as byte]
  }

  /** The bytes of a Go string holding `s`. */
  function Utf8(s: string): (bs: seq<byte>)
    ensures |s| <= |bs| <= 4 * |s|
  {
    if |s| == 0 then [] else EncodeChar(s[0]) + Utf8(s[1..])
  }

  /** Encoding is a homomorphism: the bytes of `s + t` are the bytes of `s`
      followed by the bytes of `t`. */
  lemma {:induction false} Utf8Append(s: string, t: string)
    ensures Utf8(s + t) == Utf8(s) + Utf8(t)
  {
    if |s| > 0 {
      assert (s + t)[0] == s[0] && (s + t)[1..] == s[1..] + t;
      Utf8Append(s[1..], t);
    } else {
      assert s + t == t;
    }
  }

  /** Go's `len` on a string: its length in bytes. */
  function ByteLength(s: string): (n: nat)
    ensures |s| <= n <= 4 * |s|
    ensures |s| == 1 ==> n == |EncodeChar(s[0])|
  {
    assert |s| == 1 ==> s[1..] == [];
    |Utf8(s)|
  }

  /** Byte length is additive over concatenation. */
  lemma ByteLengthAppend(s: string, t: string)
    ensures ByteLength(s + t) == ByteLength(s) + ByteLength(t)
  {
    Utf8Append(s, t);
  }

  /** Text made only of ASCII characters has one byte per character. */
  lemma {:induction false} AsciiByteLength(s: string)
    requires forall k :: 0 <= k < |s| ==> s[k] < '\U{80}'
    ensures ByteLength(s) == |s|
  {
    if |s| > 0 {
      AsciiByteLength(s[1..]);
    }
  }

  /** Text made only of characters from U+0800 to U+FFFF (kana, kanji and
      most other CJK text) takes three bytes per character. */
  lemma {:induction false} ThreeByteLength(s: string)
    requires forall k :: 0 <= k < |s| ==> '\U{800}' <= s[k] <= '\U{FFFF}'
    ensures ByteLength(s) == 3 * |s|
  {
    if |s| > 0 {
      ThreeByteLength(s[1..]);
    }
  }
}
