/** JavaScript's view of texts: trimming, length in UTF-16 code units, UUIDs and their lower case. */
module Texts {

  predicate IsSpace(c: char) {
    var n := c as int;
    || 9 <= n <= 13 || n == 0x20 || n == 0xA0 || n == 0x1680 || 0x2000 <= n <= 0x200A
    || n == 0x2028 || n == 0x2029 || n == 0x202F || n == 0x205F || n == 0x3000 || n == 0xFEFF
  }

  function Trim(s: string): (r: string)
    ensures r == "" || (!IsSpace(r[0]) && !IsSpace(r[|r| - 1]))
    ensures s == r <==> s == "" || (!IsSpace(s[0]) && !IsSpace(s[|s| - 1]))
    ensures |r| <= |s|
  {
    if s == "" then s
    else if IsSpace(s[0]) then Trim(s[1..])
    else if IsSpace(s[|s| - 1]) then Trim(s[..|s| - 1])
    else s
  }

  predicate AllSpace(s: string) {
    forall i :: 0 <= i < |s| ==> IsSpace(s[i])
  }

  lemma NoSpace()
    ensures AllSpace("") && forall c :: AllSpace([c]) <==> IsSpace(c)
  {
    hide IsSpace;
    forall c ensures AllSpace([c]) <==> IsSpace(c) {
      assert [c][0] == c;
    }
  }

  lemma SpaceJoins(s: string, t: string)
    requires AllSpace(s) && AllSpace(t)
    ensures AllSpace(s + t)
  {
    hide IsSpace;
  }

  lemma SliceOfTail(s: string, i: nat, j: nat)
    requires i <= j < |s|
    ensures s[1..][i..j] == s[i + 1..j + 1] && [s[0]] + s[1..][..i] == s[..i + 1] && s[1..][j..] == s[j + 1..]
  {
  }

  lemma SliceOfFront(s: string, i: nat, j: nat)
    requires i <= j < |s|
    ensures var n := |s| - 1; s[..n][i..j] == s[i..j] && s[..n][..i] == s[..i] && s[..n][j..] + [s[n]] == s[j..]
  {
  }

  /** Trimming takes white space off both ends and nothing else. */
  lemma {:induction false} TrimMeans(s: string) returns (i: nat, j: nat)
    ensures i <= j <= |s| && Trim(s) == s[i..j] && AllSpace(s[..i]) && AllSpace(s[j..])
  {
    hide IsSpace, AllSpace;
    NoSpace();
    if s == "" {
      i, j := 0, 0;
    } else if IsSpace(s[0]) {
      i, j := TrimMeans(s[1..]);
      SliceOfTail(s, i, j);
      SpaceJoins([s[0]], s[1..][..i]);
      i, j := i + 1, j + 1;
    } else if IsSpace(s[|s| - 1]) {
      var n := |s| - 1;
      i, j := TrimMeans(s[..n]);
      SliceOfFront(s, i, j);
      SpaceJoins(s[..n][j..], [s[n]]);
    } else {
      i, j := 0, |s|;
      assert s[..i] == "" && s[i..j] == s && s[j..] == "";
    }
  }

  /** The length of a text in UTF-16 code units. */
  function Utf16Length(s: string): (n: nat)
    ensures n >= |s|
  {
    if |s| == 0 then 0 else Utf16Length(s[..|s| - 1]) + (if s[|s| - 1] as int > 0xFFFF then 2 else 1)
  }

  predicate IsHex(c: char) {
    '0' <= c <= '9' || 'a' <= c <= 'f' || 'A' <= c <= 'F'
  }

  /** 8-4-4-4-12 hexadecimal digits, in either case. */
  predicate IsUuid(s: string) {
    |s| == 36 && forall i :: 0 <= i < 36 ==> (if i in {8, 13, 18, 23} then s[i] == '-' else IsHex(s[i]))
  }

  predicate IsUuidV4(s: string) {
    IsUuid(s) && s[14] == '4' && s[19] in {'8', '9', 'a', 'b', 'A', 'B'}
  }

  function LowerChar(c: char): char {
    if 'A' <= c <= 'Z' then (c as int + 32) as char else c
  }

  function Lower(s: string): (r: string)
    ensures |r| == |s|
  {
    seq(|s|, i requires 0 <= i < |s| => LowerChar(s[i]))
  }

  lemma LowerIsStable(s: string)
    ensures Lower(Lower(s)) == Lower(s)
    ensures IsUuid(s) ==> IsUuid(Lower(s))
  {
  }

  const CAPITALS := "ABCDEFGHIJKLMNOPQRSTUVWXYZ"
  const SMALL := "abcdefghijklmnopqrstuvwxyz"

  /** The same letter up to its case, or the same character. */
  predicate SameUpToCase(a: char, b: char) {
    a == b || exists k :: 0 <= k < 26 && ((a == CAPITALS[k] && b == SMALL[k]) || (a == SMALL[k] && b == CAPITALS[k]))
  }

  lemma LetterTables(k: nat)
    requires k < 26
    ensures CAPITALS[k] as int == 65 + k && SMALL[k] as int == 97 + k
  {
  }

  lemma LowerCharMeans(a: char, b: char)
    ensures LowerChar(a) == LowerChar(b) <==> SameUpToCase(a, b)
  {
    if 'A' <= a <= 'Z' {
      LetterTables(a as int - 65);
    }
    if 'A' <= b <= 'Z' {
      LetterTables(b as int - 65);
    }
    if k :| 0 <= k < 26 && ((a == CAPITALS[k] && b == SMALL[k]) || (a == SMALL[k] && b == CAPITALS[k])) {
      LetterTables(k);
    }
    hide CAPITALS, SMALL;
  }

  /** Two texts have one lower-case form exactly when they differ at most in the case of letters; and that form has no capitals. */
  lemma LowerMeans(s: string, t: string)
    ensures Lower(s) == Lower(t) <==> |s| == |t| && forall i :: 0 <= i < |s| ==> SameUpToCase(s[i], t[i])
    ensures forall i :: 0 <= i < |s| ==> !('A' <= Lower(s)[i] <= 'Z')
  {
    hide SameUpToCase, LowerChar;
    if |s| == |t| {
      forall i | 0 <= i < |s| ensures LowerChar(s[i]) == LowerChar(t[i]) <==> SameUpToCase(s[i], t[i]) {
        LowerCharMeans(s[i], t[i]);
      }
      if Lower(s) == Lower(t) {
        forall i | 0 <= i < |s| ensures SameUpToCase(s[i], t[i]) {
          assert Lower(s)[i] == Lower(t)[i];
        }
      }
    }
    forall i | 0 <= i < |s| ensures !('A' <= Lower(s)[i] <= 'Z') {
      NoCapital(s[i]);
    }
  }

  lemma NoCapital(c: char)
    ensures !('A' <= LowerChar(c) <= 'Z')
  {
  }

  /** A version 4 UUID of one repeated digit, for examples. */
  function SampleUuid(c: char): string {
    seq(36, i requires 0 <= i < 36 => if i in {8, 13, 18, 23} then '-' else if i == 14 then '4' else c)
  }

  lemma SampleIsUuid(c: char)
    requires c in {'8', '9', 'a', 'b'}
    ensures IsUuidV4(SampleUuid(c)) && Lower(SampleUuid(c)) == SampleUuid(c)
  {
  }
}
