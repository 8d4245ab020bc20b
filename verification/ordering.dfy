/** Three-way comparison, lexicographic order and stable sorting, as the source uses them for line ids, tender keys and
    composite byte keys. */
module Ordering {
  import opened Sequences

  datatype Cmp = Less | Equal | Greater

  ghost predicate IsPreorder<T(!new)>(cmp: (T, T) -> Cmp) {
    && (forall a :: cmp(a, a).Equal?)
    && (forall a, b :: cmp(a, b).Less? <==> cmp(b, a).Greater?)
    && (forall a, b, c :: !cmp(a, b).Greater? && !cmp(b, c).Greater? ==> !cmp(a, c).Greater?)
  }

  ghost predicate IsTotalOrder<T(!new)>(cmp: (T, T) -> Cmp) {
    && IsPreorder(cmp)
    && (forall a, b :: cmp(a, b).Equal? ==> a == b)
  }

  /** First difference decides; a proper prefix comes first. */
  function Lex<T>(cmp: (T, T) -> Cmp, a: seq<T>, b: seq<T>): Cmp {
    if |a| == 0 then (if |b| == 0 then Equal else Less)
    else if |b| == 0 then Greater
    else if cmp(a[0], b[0]).Equal? then Lex(cmp, a[1..], b[1..])
    else cmp(a[0], b[0])
  }

  lemma {:induction false} LexEqual<T(!new)>(cmp: (T, T) -> Cmp, a: seq<T>, b: seq<T>)
    requires IsTotalOrder(cmp)
    ensures Lex(cmp, a, b).Equal? <==> a == b
  {
    if |a| > 0 && |b| > 0 {
      LexEqual(cmp, a[1..], b[1..]);
      assert a == [a[0]] + a[1..] && b == [b[0]] + b[1..];
    }
  }

  lemma {:induction false} LexFlips<T(!new)>(cmp: (T, T) -> Cmp, a: seq<T>, b: seq<T>)
    requires IsTotalOrder(cmp)
    ensures Lex(cmp, a, b).Less? <==> Lex(cmp, b, a).Greater?
  {
    if |a| > 0 && |b| > 0 {
      LexFlips(cmp, a[1..], b[1..]);
    }
  }

  lemma {:induction false} LexTransitive<T(!new)>(cmp: (T, T) -> Cmp, a: seq<T>, b: seq<T>, c: seq<T>)
    requires IsTotalOrder(cmp)
    requires !Lex(cmp, a, b).Greater? && !Lex(cmp, b, c).Greater?
    ensures !Lex(cmp, a, c).Greater?
  {
    if |a| > 0 && |b| > 0 && |c| > 0 && cmp(a[0], b[0]).Equal? && cmp(b[0], c[0]).Equal? {
      LexTransitive(cmp, a[1..], b[1..], c[1..]);
    }
  }

  lemma LexIsTotal<T(!new)>(cmp: (T, T) -> Cmp)
    requires IsTotalOrder(cmp)
    ensures forall a, b {:trigger Lex(cmp, a, b)} :: Lex(cmp, a, b).Equal? <==> a == b
    ensures forall a, b {:trigger Lex(cmp, a, b)} :: Lex(cmp, a, b).Less? <==> Lex(cmp, b, a).Greater?
    ensures forall a, b, c {:trigger Lex(cmp, a, b), Lex(cmp, b, c)} ::
      !Lex(cmp, a, b).Greater? && !Lex(cmp, b, c).Greater? ==> !Lex(cmp, a, c).Greater?
  {
    forall a, b ensures (Lex(cmp, a, b).Equal? <==> a == b) && (Lex(cmp, a, b).Less? <==> Lex(cmp, b, a).Greater?) {
      LexEqual(cmp, a, b);
      LexFlips(cmp, a, b);
    }
    forall a, b, c | !Lex(cmp, a, b).Greater? && !Lex(cmp, b, c).Greater? ensures !Lex(cmp, a, c).Greater? {
      LexTransitive(cmp, a, b, c);
    }
  }

  /** A proper prefix. */
  predicate IsProperPrefix<T(==)>(a: seq<T>, b: seq<T>) {
    |a| < |b| && a == b[..|a|]
  }

  /** The lists agree before i, and both have an element there. */
  predicate AgreeUpTo<T(==)>(a: seq<T>, b: seq<T>, i: int) {
    0 <= i < |a| && i < |b| && a[..i] == b[..i]
  }

  /** What comes first is a proper prefix, or smaller at the first difference. */
  lemma {:induction false} LexMeans<T(!new)>(cmp: (T, T) -> Cmp, a: seq<T>, b: seq<T>)
    requires IsTotalOrder(cmp)
    ensures Lex(cmp, a, b).Less? <==> IsProperPrefix(a, b) || exists i :: AgreeUpTo(a, b, i) && cmp(a[i], b[i]).Less?
  {
    if |a| > 0 && |b| > 0 {
      if a[0] == b[0] {
        LexMeans(cmp, a[1..], b[1..]);
        PrefixShifts(a, b);
        if j :| AgreeUpTo(a[1..], b[1..], j) && cmp(a[1..][j], b[1..][j]).Less? {
          assert AgreeUpTo(a, b, j + 1) by {
            assert a[..j + 1] == [a[0]] + a[1..][..j] && b[..j + 1] == [b[0]] + b[1..][..j];
          }
          assert cmp(a[j + 1], b[j + 1]).Less?;
        }
        if i :| AgreeUpTo(a, b, i) && cmp(a[i], b[i]).Less? {
          assert i > 0;
          assert a[1..][..i - 1] == a[..i][1..] && b[1..][..i - 1] == b[..i][1..];
          assert AgreeUpTo(a[1..], b[1..], i - 1) && cmp(a[1..][i - 1], b[1..][i - 1]).Less?;
        }
      } else {
        if cmp(a[0], b[0]).Less? {
          assert AgreeUpTo(a, b, 0);
        }
        if i :| AgreeUpTo(a, b, i) && cmp(a[i], b[i]).Less? {
          if i > 0 {
            assert a[..i][0] == b[..i][0];
          }
        }
      }
    } else if |a| == 0 && |b| > 0 {
      assert b[..0] == [];
    }
  }

  lemma PrefixShifts<T>(a: seq<T>, b: seq<T>)
    requires |a| > 0 && |b| > 0 && a[0] == b[0]
    ensures IsProperPrefix(a, b) <==> IsProperPrefix(a[1..], b[1..])
  {
    if IsProperPrefix(a, b) {
      assert b[1..][..|a| - 1] == b[..|a|][1..];
    }
    if IsProperPrefix(a[1..], b[1..]) {
      assert a == [a[0]] + a[1..] && b[..|a|] == [b[0]] + b[1..][..|a| - 1];
    }
  }

  function CompareInts(a: int, b: int): Cmp {
    if a < b then Less else if a == b then Equal else Greater
  }

  function CompareChars(a: char, b: char): Cmp {
    CompareInts(a as int, b as int)
  }

  function CompareText(a: string, b: string): Cmp {
    Lex(CompareChars, a, b)
  }

  /** String comparison orders all texts: a sorted list of distinct texts has exactly one arrangement. */
  lemma TextOrderIsTotal()
    ensures IsTotalOrder(CompareText)
  {
    forall a: string, b: string, c: string
      ensures CompareText(a, b).Equal? <==> a == b
      ensures CompareText(a, b).Less? <==> CompareText(b, a).Greater?
      ensures !CompareText(a, b).Greater? && !CompareText(b, c).Greater? ==> !CompareText(a, c).Greater?
    {
      LexEqual(CompareChars, a, b);
      LexFlips(CompareChars, a, b);
      if !CompareText(a, b).Greater? && !CompareText(b, c).Greater? {
        LexTransitive(CompareChars, a, b, c);
      }
    }
  }

  /** One text comes before another when it is a proper prefix of it, or has the smaller character where they first differ. */
  ghost predicate TextBefore(a: string, b: string) {
    IsProperPrefix(a, b) || exists i :: AgreeUpTo(a, b, i) && a[i] < b[i]
  }

  lemma CompareTextMeans(a: string, b: string)
    ensures CompareText(a, b).Less? <==> TextBefore(a, b)
    ensures CompareText(a, b).Greater? <==> TextBefore(b, a)
  {
    TextOrderIsTotal();
    LexMeans(CompareChars, a, b);
    LexMeans(CompareChars, b, a);
    forall c: char, d: char ensures CompareChars(c, d).Less? <==> c < d {
    }
    assert (exists i :: AgreeUpTo(a, b, i) && a[i] < b[i]) <==> (exists i :: AgreeUpTo(a, b, i) && CompareChars(a[i], b[i]).Less?);
    assert (exists i :: AgreeUpTo(b, a, i) && b[i] < a[i]) <==> (exists i :: AgreeUpTo(b, a, i) && CompareChars(b[i], a[i]).Less?);
  }

  // ---- sorting -------------------------------------------------------------------------------------------------

  ghost predicate Sorted<T>(cmp: (T, T) -> Cmp, s: seq<T>) {
    forall i, j :: 0 <= i < j < |s| ==> !cmp(s[i], s[j]).Greater?
  }

  /** Puts x after every element that is not greater: the stable insertion. */
  function Insert<T>(cmp: (T, T) -> Cmp, s: seq<T>, x: T): seq<T> {
    if |s| > 0 && cmp(s[|s| - 1], x).Greater? then Insert(cmp, s[..|s| - 1], x) + [s[|s| - 1]] else s + [x]
  }

  function Sort<T>(cmp: (T, T) -> Cmp, s: seq<T>): seq<T> {
    if |s| == 0 then [] else Insert(cmp, Sort(cmp, s[..|s| - 1]), s[|s| - 1])
  }

  lemma {:induction false} InsertAdds<T>(cmp: (T, T) -> Cmp, s: seq<T>, x: T)
    ensures multiset(Insert(cmp, s, x)) == multiset(s) + multiset{x}
  {
    if |s| > 0 && cmp(s[|s| - 1], x).Greater? {
      InsertAdds(cmp, s[..|s| - 1], x);
      assert s == s[..|s| - 1] + [s[|s| - 1]];
    }
  }

  lemma {:induction false} InsertSorts<T(!new)>(cmp: (T, T) -> Cmp, s: seq<T>, x: T)
    requires IsPreorder(cmp) && Sorted(cmp, s)
    ensures Sorted(cmp, Insert(cmp, s, x))
  {
    if |s| > 0 && cmp(s[|s| - 1], x).Greater? {
      var front, last := s[..|s| - 1], s[|s| - 1];
      InsertSorts(cmp, front, x);
      InsertAdds(cmp, front, x);
      var r := Insert(cmp, front, x);
      forall i | 0 <= i < |r| ensures !cmp(r[i], last).Greater? {
        assert r[i] in multiset(front) + multiset{x};
      }
    }
  }

  lemma {:induction false} SortSorts<T(!new)>(cmp: (T, T) -> Cmp, s: seq<T>)
    requires IsPreorder(cmp)
    ensures Sorted(cmp, Sort(cmp, s))
    ensures multiset(Sort(cmp, s)) == multiset(s)
    ensures |Sort(cmp, s)| == |s|
  {
    if |s| > 0 {
      var front := s[..|s| - 1];
      assert s == front + [s[|s| - 1]];
      SortSorts(cmp, front);
      InsertAdds(cmp, Sort(cmp, front), s[|s| - 1]);
      InsertSorts(cmp, Sort(cmp, front), s[|s| - 1]);
    }
    assert |multiset(Sort(cmp, s))| == |multiset(s)|;
  }

  /** What is sorted stays as it is. */
  lemma {:induction false} SortedStays<T>(cmp: (T, T) -> Cmp, s: seq<T>)
    requires Sorted(cmp, s)
    ensures Sort(cmp, s) == s
  {
    if |s| > 0 {
      SortedStays(cmp, s[..|s| - 1]);
      assert s == s[..|s| - 1] + [s[|s| - 1]];
    }
  }

  lemma SortMembers<T(!new)>(cmp: (T, T) -> Cmp, s: seq<T>)
    requires IsPreorder(cmp)
    ensures forall x :: x in Sort(cmp, s) <==> x in s
  {
    SortSorts(cmp, s);
    hide Sort;
    forall x ensures x in Sort(cmp, s) <==> x in s {
      assert x in multiset(Sort(cmp, s)) <==> x in multiset(s);
    }
  }

  /** Two sorted arrangements of the same elements are the same list, if no two different elements compare equal. */
  lemma {:induction false} SortedIsUnique<T(!new)>(cmp: (T, T) -> Cmp, a: seq<T>, b: seq<T>)
    requires IsPreorder(cmp) && Sorted(cmp, a) && Sorted(cmp, b)
    requires multiset(a) == multiset(b)
    requires forall x, y :: x in a && y in a && cmp(x, y).Equal? ==> x == y
    ensures a == b
  {
    hide Sorted, IsPreorder;
    assert |multiset(a)| == |multiset(b)|;
    if |a| > 0 {
      assert b[0] in multiset(a) && a[0] in multiset(b);
      SameHead(cmp, a, b);
      SortedTail(cmp, a);
      SortedTail(cmp, b);
      ExtractBoth(a, 0, b, 0);
      assert Without(a, 0) == a[1..] && Without(b, 0) == b[1..];
      SortedIsUnique(cmp, a[1..], b[1..]);
      assert a == [a[0]] + a[1..] && b == [b[0]] + b[1..];
    }
  }

  lemma SortedTail<T(!new)>(cmp: (T, T) -> Cmp, s: seq<T>)
    requires Sorted(cmp, s) && |s| > 0
    ensures Sorted(cmp, s[1..])
  {
  }

  lemma SameHead<T(!new)>(cmp: (T, T) -> Cmp, a: seq<T>, b: seq<T>)
    requires IsPreorder(cmp) && Sorted(cmp, a) && Sorted(cmp, b)
    requires |a| > 0 && |b| > 0 && a[0] in b && b[0] in a
    requires forall x, y :: x in a && y in a && cmp(x, y).Equal? ==> x == y
    ensures a[0] == b[0]
  {
    var i :| 0 <= i < |b| && b[i] == a[0];
    var j :| 0 <= j < |a| && a[j] == b[0];
    assert !cmp(a[0], b[0]).Greater? by {
      if j > 0 { assert !cmp(a[0], a[j]).Greater?; }
    }
    assert !cmp(b[0], a[0]).Greater? by {
      if i > 0 { assert !cmp(b[0], b[i]).Greater?; }
    }
    assert cmp(a[0], b[0]).Equal?;
  }

  /** Sorting forgets the order of its input. */
  lemma SortForgetsOrder<T(!new)>(cmp: (T, T) -> Cmp, a: seq<T>, b: seq<T>)
    requires IsPreorder(cmp)
    requires multiset(a) == multiset(b)
    requires forall x, y :: x in a && y in a && cmp(x, y).Equal? ==> x == y
    ensures Sort(cmp, a) == Sort(cmp, b)
  {
    SortSorts(cmp, a);
    SortSorts(cmp, b);
    var s := Sort(cmp, a);
    forall x, y | x in s && y in s && cmp(x, y).Equal? ensures x == y {
      assert x in multiset(s) && y in multiset(s);
      assert x in a && y in a;
    }
    SortedIsUnique(cmp, s, Sort(cmp, b));
  }

  /** A list in which every element is less than the next. */
  ghost predicate Climbs<T>(cmp: (T, T) -> Cmp, s: seq<T>) {
    forall i :: 0 < i < |s| ==> cmp(s[i - 1], s[i]).Less?
  }

  lemma LessIsTransitive<T(!new)>(cmp: (T, T) -> Cmp, x: T, y: T, z: T)
    requires IsPreorder(cmp) && cmp(x, y).Less? && cmp(y, z).Less?
    ensures cmp(x, z).Less?
  {
    assert !cmp(x, z).Greater?;
    assert cmp(x, z).Equal? ==> !cmp(z, x).Greater?;
  }

  lemma {:induction false} ClimbsAcross<T(!new)>(cmp: (T, T) -> Cmp, s: seq<T>, i: nat, j: nat)
    requires IsPreorder(cmp) && Climbs(cmp, s) && i < j < |s|
    ensures cmp(s[i], s[j]).Less?
    decreases j - i
  {
    if i + 1 < j {
      ClimbsAcross(cmp, s, i, j - 1);
      LessIsTransitive(cmp, s[i], s[j - 1], s[j]);
    }
  }

  /** Climbing lists with the same elements are the same list. */
  lemma ClimbingIsUnique<T(!new)>(cmp: (T, T) -> Cmp, a: seq<T>, b: seq<T>)
    requires IsPreorder(cmp) && Climbs(cmp, a) && Climbs(cmp, b)
    requires forall x :: x in a <==> x in b
    ensures a == b
  {
    ClimbingIsSorted(cmp, a);
    ClimbingIsSorted(cmp, b);
    forall x ensures multiset(a)[x] == multiset(b)[x] {
      DistinctCounts(a, x);
      DistinctCounts(b, x);
      assert x in a <==> x in b;
    }
    forall x, y | x in a && y in a && cmp(x, y).Equal? ensures x == y {
      var i :| 0 <= i < |a| && a[i] == x;
      var j :| 0 <= j < |a| && a[j] == y;
      if i < j {
        ClimbsAcross(cmp, a, i, j);
      } else if j < i {
        ClimbsAcross(cmp, a, j, i);
      }
    }
    SortedIsUnique(cmp, a, b);
  }

  lemma ClimbingIsSorted<T(!new)>(cmp: (T, T) -> Cmp, s: seq<T>)
    requires IsPreorder(cmp) && Climbs(cmp, s)
    ensures Sorted(cmp, s) && Distinct(s)
  {
    forall i, j | 0 <= i < j < |s| ensures !cmp(s[i], s[j]).Greater? && s[i] != s[j] {
      ClimbsAcross(cmp, s, i, j);
    }
  }
}
