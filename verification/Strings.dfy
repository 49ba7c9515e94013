/** Byte strings: searching, the order of sort.Strings, and sorting. */
module Strings {
  function IndexOf(c: char, s: string): (k: nat)
    ensures k <= |s|
    ensures k < |s| ==> s[k] == c
    ensures forall i :: 0 <= i < k ==> s[i] != c
  {
    if s == "" || s[0] == c then 0 else 1 + IndexOf(c, s[1..])
  }

  lemma {:induction false} IndexAfter(c: char, p: string, s: string)
    requires c !in p
    ensures IndexOf(c, p + s) == |p| + IndexOf(c, s)
  {
    if p == "" {
      assert p + s == s;
    } else {
      IndexAfter(c, p[1..], s);
      assert (p + s)[1..] == p[1..] + s;
    }
  }

  // ---------- Order ----------

  predicate StringLe(a: string, b: string) {
    a == "" || (b != "" && (a[0] < b[0] || (a[0] == b[0] && StringLe(a[1..], b[1..]))))
  }

  lemma {:induction false} LeTotal(a: string, b: string)
    ensures StringLe(a, b) || StringLe(b, a)
    ensures StringLe(a, b) && StringLe(b, a) ==> a == b
  {
    if a != "" && b != "" && a[0] == b[0] {
      LeTotal(a[1..], b[1..]);
      assert a == [a[0]] + a[1..] && b == [b[0]] + b[1..];
    }
  }

  lemma {:induction false} LeTransitive(a: string, b: string, c: string)
    requires StringLe(a, b) && StringLe(b, c)
    ensures StringLe(a, c)
  {
    if a != "" && a[0] == b[0] == c[0] {
      LeTransitive(a[1..], b[1..], c[1..]);
    }
  }

  /** The first place at which two strings differ. */
  predicate DifferAt(a: string, b: string, i: nat) {
    i < |a| && i < |b| && a[..i] == b[..i] && a[i] != b[i]
  }

  /** Lexicographic order of bytes, where a prefix comes first. */
  lemma {:induction false} LeIsLexicographic(a: string, b: string)
    ensures StringLe(a, b) <==> a <= b || exists i: nat :: DifferAt(a, b, i) && a[i] < b[i]
  {
    if a != "" && b != "" {
      if a[0] == b[0] {
        LeIsLexicographic(a[1..], b[1..]);
        assert a <= b <==> a[1..] <= b[1..];
        if i: nat :| DifferAt(a[1..], b[1..], i) && a[1..][i] < b[1..][i] {
          assert a[..i + 1] == [a[0]] + a[1..][..i] && b[..i + 1] == [b[0]] + b[1..][..i];
          assert DifferAt(a, b, i + 1);
        }
        if i: nat :| DifferAt(a, b, i) && a[i] < b[i] {
          assert i > 0 && a[..i][1..] == a[1..][..i - 1] && b[..i][1..] == b[1..][..i - 1];
          assert DifferAt(a[1..], b[1..], i - 1);
        }
      } else {
        assert DifferAt(a, b, 0);
        assert forall i: nat :: DifferAt(a, b, i) && i > 0 ==> a[..i][0] == b[..i][0];
      }
    }
  }

  predicate SortedStrings(s: seq<string>) {
    forall i, j :: 0 <= i <= j < |s| ==> StringLe(s[i], s[j])
  }

  predicate Distinct(s: seq<string>) {
    forall i, j :: 0 <= i < j < |s| ==> s[i] != s[j]
  }

  // ---------- Sorting ----------

  function Insert(x: string, s: seq<string>): seq<string> {
    if s == [] || StringLe(x, s[0]) then [x] + s else [s[0]] + Insert(x, s[1..])
  }

  /** sort.Strings */
  function SortStrings(s: seq<string>): seq<string> {
    if s == [] then [] else Insert(s[0], SortStrings(s[1..]))
  }

  lemma {:induction false} InsertElements(x: string, s: seq<string>)
    ensures multiset(Insert(x, s)) == multiset(s) + multiset{x}
  {
    if s != [] && !StringLe(x, s[0]) {
      InsertElements(x, s[1..]);
      assert s == [s[0]] + s[1..];
    }
  }

  /** A smaller element in front keeps the order. */
  lemma ConsSorted(x: string, s: seq<string>)
    requires SortedStrings(s) && forall k :: k in s ==> StringLe(x, k)
    ensures SortedStrings([x] + s)
  {
    LeTotal(x, x);
    forall i, j | 0 <= i <= j < |s| + 1 ensures StringLe(([x] + s)[i], ([x] + s)[j]) {
      if i > 0 {
        assert ([x] + s)[i] == s[i - 1] && ([x] + s)[j] == s[j - 1];
      } else if j > 0 {
        assert ([x] + s)[j] in s;
      }
    }
  }

  lemma HeadIsLeast(s: seq<string>, k: string)
    requires SortedStrings(s) && k in s
    ensures StringLe(s[0], k)
  {
  }

  lemma {:induction false} InsertSorted(x: string, s: seq<string>)
    requires SortedStrings(s)
    ensures SortedStrings(Insert(x, s)) && multiset(Insert(x, s)) == multiset(s) + multiset{x}
  {
    InsertElements(x, s);
    if s == [] {
      LeTotal(x, x);
    } else if StringLe(x, s[0]) {
      forall k | k in s ensures StringLe(x, k) {
        HeadIsLeast(s, k);
        LeTransitive(x, s[0], k);
      }
      ConsSorted(x, s);
    } else {
      LeTotal(x, s[0]);
      InsertSorted(x, s[1..]);
      forall k | k in Insert(x, s[1..]) ensures StringLe(s[0], k) {
        assert k in multiset(Insert(x, s[1..]));
        if k in s[1..] { HeadIsLeast(s, k); }
      }
      ConsSorted(s[0], Insert(x, s[1..]));
    }
  }

  lemma {:induction false} SortIsSorted(s: seq<string>)
    ensures SortedStrings(SortStrings(s)) && multiset(SortStrings(s)) == multiset(s)
  {
    if s != [] {
      SortIsSorted(s[1..]);
      InsertSorted(s[0], SortStrings(s[1..]));
      assert s == [s[0]] + s[1..];
    }
  }

  lemma LeastAgrees(a: seq<string>, b: seq<string>)
    requires SortedStrings(a) && SortedStrings(b) && a != [] && b != [] && multiset(a) == multiset(b)
    ensures a[0] == b[0]
  {
    assert a[0] in multiset(b) && b[0] in multiset(a);
    HeadIsLeast(b, a[0]);
    HeadIsLeast(a, b[0]);
    LeTotal(a[0], b[0]);
  }

  lemma TailElements(s: seq<string>)
    requires s != []
    ensures multiset(s[1..]) == multiset(s) - multiset{s[0]}
  {
    assert s == [s[0]] + s[1..];
  }

  /** A sorted sequence is determined by its elements. */
  lemma {:induction false} SortedUnique(a: seq<string>, b: seq<string>)
    requires SortedStrings(a) && SortedStrings(b) && multiset(a) == multiset(b)
    ensures a == b
  {
    assert |a| == |multiset(a)| && |b| == |multiset(b)|;
    if a != [] {
      LeastAgrees(a, b);
      TailElements(a);
      TailElements(b);
      SortedUnique(a[1..], b[1..]);
      assert a == [a[0]] + a[1..] && b == [b[0]] + b[1..];
    }
  }

  lemma {:induction false} DistinctMultiset(s: seq<string>)
    requires Distinct(s)
    ensures forall x :: multiset(s)[x] <= 1
  {
    if s != [] {
      DistinctMultiset(s[..|s| - 1]);
      assert s == s[..|s| - 1] + [s[|s| - 1]];
    }
  }

  /** Sorting keeps the elements and introduces no repetition. */
  lemma SortDistinct(s: seq<string>)
    requires Distinct(s)
    ensures SortedStrings(SortStrings(s)) && Distinct(SortStrings(s)) && forall k :: k in SortStrings(s) <==> k in s
  {
    SortIsSorted(s);
    DistinctMultiset(s);
    var sorted := SortStrings(s);
    forall i, j | 0 <= i < j < |sorted| ensures sorted[i] != sorted[j] {
      var before, after := sorted[..j], sorted[j..];
      assert sorted == before + after && after[0] == sorted[j];
      assert multiset(sorted)[sorted[j]] == multiset(before)[sorted[j]] + multiset(after)[sorted[j]];
      assert multiset(s)[sorted[j]] <= 1 && multiset(after)[sorted[j]] >= 1;
      assert before[i] == sorted[i] && sorted[j] !in before;
    }
    forall k ensures k in sorted <==> k in s {
      assert k in sorted <==> k in multiset(sorted);
      assert k in s <==> k in multiset(s);
    }
  }

  lemma SortedDistinctUnique(a: seq<string>, b: seq<string>)
    requires SortedStrings(a) && Distinct(a) && SortedStrings(b) && Distinct(b)
    requires forall x :: x in a <==> x in b
    ensures a == b
  {
    DistinctMultiset(a);
    DistinctMultiset(b);
    forall x ensures multiset(a)[x] == multiset(b)[x] {
      assert x in a <==> x in multiset(a);
      assert x in b <==> x in multiset(b);
    }
    assert multiset(a) == multiset(b);
    SortedUnique(a, b);
  }
}
