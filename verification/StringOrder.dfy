/** Python's order on strings, and `sorted` over distinct ones. */
module StringOrder {
  import opened Seqs

  predicate Le(a: string, b: string) {
    a == [] || (b != [] && (a[0] < b[0] || (a[0] == b[0] && Le(a[1..], b[1..]))))
  }

  predicate Less(a: string, b: string) {
    Le(a, b) && a != b
  }

  /** a is a prefix of b, or has the smaller character where they first differ. */
  predicate Precedes(a: string, b: string) {
    a <= b || exists k :: 0 <= k < |a| && k < |b| && a[..k] == b[..k] && a[k] < b[k]
  }

  lemma PrecedesTail(x: char, a: string, y: char, b: string)
    requires Precedes([x] + a, [y] + b)
    ensures x < y || (x == y && Precedes(a, b))
  {
    var s, t := [x] + a, [y] + b;
    if s <= t {
      assert x == s[0] == t[0] == y && a == s[1..] && b == t[1..];
    } else {
      var k :| 0 <= k < |s| && k < |t| && s[..k] == t[..k] && s[k] < t[k];
      if k > 0 {
        assert s[..k][0] == t[..k][0];
        assert a[..k - 1] == s[..k][1..] && b[..k - 1] == t[..k][1..];
        assert a[k - 1] < b[k - 1];
      }
    }
  }

  lemma PrecedesCons(x: char, a: string, y: char, b: string)
    requires x < y || (x == y && Precedes(a, b))
    ensures Precedes([x] + a, [y] + b)
  {
    var s, t := [x] + a, [y] + b;
    if x < y {
      assert s[..0] == t[..0] && s[0] < t[0];
    } else if a <= b {
      assert s <= t;
    } else {
      var k :| 0 <= k < |a| && k < |b| && a[..k] == b[..k] && a[k] < b[k];
      assert s[..k + 1] == [x] + a[..k] && t[..k + 1] == [y] + b[..k];
      assert s[k + 1] < t[k + 1];
    }
  }

  /** The recursive comparison is the order by the first difference. */
  lemma {:induction false} LeMeaning(a: string, b: string)
    ensures Le(a, b) <==> Precedes(a, b)
  {
    if a != [] && b != [] {
      LeMeaning(a[1..], b[1..]);
      assert a == [a[0]] + a[1..] && b == [b[0]] + b[1..];
      if Le(a, b) { PrecedesCons(a[0], a[1..], b[0], b[1..]); }
      if Precedes(a, b) { PrecedesTail(a[0], a[1..], b[0], b[1..]); }
    }
  }

  /** Distinct strings, each preceding the later ones. */
  predicate InStringOrder(s: seq<string>) {
    forall i, j :: 0 <= i < j < |s| ==> s[i] != s[j] && Precedes(s[i], s[j])
  }

  lemma SortedMeaning(s: seq<string>)
    ensures StrictlySorted(s) <==> InStringOrder(s)
  {
    forall i, j | 0 <= i < j < |s| ensures Less(s[i], s[j]) <==> s[i] != s[j] && Precedes(s[i], s[j]) {
      LeMeaning(s[i], s[j]);
    }
    hide Le, Precedes;
  }

  lemma {:induction false} Total(a: string, b: string)
    ensures Le(a, b) || Le(b, a)
    ensures Le(a, b) && Le(b, a) ==> a == b
  {
    if a != [] && b != [] && a[0] == b[0] {
      Total(a[1..], b[1..]);
      assert a == [a[0]] + a[1..] && b == [b[0]] + b[1..];
    }
  }

  lemma {:induction false} Transitive(a: string, b: string, c: string)
    requires Le(a, b) && Le(b, c)
    ensures Le(a, c)
  {
    if a != [] && a[0] == b[0] == c[0] {
      Transitive(a[1..], b[1..], c[1..]);
    }
  }

  predicate StrictlySorted(s: seq<string>) {
    forall i, j :: 0 <= i < j < |s| ==> Less(s[i], s[j])
  }

  function InsertString(s: seq<string>, x: string): seq<string> {
    if s == [] then [x] else
      var k := |s| - 1;
      if Le(s[k], x) then s + [x] else InsertString(s[..k], x) + [s[k]]
  }

  /** `sorted(...)` on strings. */
  function SortStrings(s: seq<string>): seq<string> {
    if s == [] then [] else InsertString(SortStrings(s[..|s| - 1]), s[|s| - 1])
  }

  lemma {:induction false} InsertElements(s: seq<string>, x: string)
    ensures forall y :: y in InsertString(s, x) <==> y in s || y == x
    ensures |InsertString(s, x)| == |s| + 1
  {
    if s != [] {
      var k := |s| - 1;
      assert s == s[..k] + [s[k]];
      InsertElements(s[..k], x);
    }
  }

  lemma {:induction false} InsertSorts(s: seq<string>, x: string)
    requires StrictlySorted(s) && x !in s
    ensures StrictlySorted(InsertString(s, x))
  {
    if s != [] {
      var k := |s| - 1;
      var front, last := s[..k], s[k];
      if Le(last, x) {
        forall i | 0 <= i < |s| ensures Less(s[i], x) {
          if i < k { Transitive(s[i], last, x); }
        }
      } else {
        Total(last, x);
        InsertSorts(front, x);
        InsertElements(front, x);
        var r := InsertString(front, x);
        forall i | 0 <= i < |r| ensures Less(r[i], last) {
          assert r[i] == x || r[i] in front;
        }
      }
    }
  }

  lemma {:induction false} SortedKeepsElements(s: seq<string>)
    ensures forall y :: y in SortStrings(s) <==> y in s
    ensures |SortStrings(s)| == |s|
  {
    if s != [] {
      var k := |s| - 1;
      assert s == s[..k] + [s[k]];
      SortedKeepsElements(s[..k]);
      InsertElements(SortStrings(s[..k]), s[k]);
    }
  }

  lemma {:induction false} SortedIsSorted(s: seq<string>)
    requires Distinct(s)
    ensures StrictlySorted(SortStrings(s))
  {
    if s != [] {
      var k := |s| - 1;
      SortedIsSorted(s[..k]);
      SortedKeepsElements(s[..k]);
      assert s[k] !in s[..k];
      InsertSorts(SortStrings(s[..k]), s[k]);
    }
  }

  lemma LastIsGreatest(s: seq<string>, x: string)
    requires StrictlySorted(s) && x in s
    ensures Le(x, s[|s| - 1])
  {
    Total(x, x);
  }

  lemma LastOccurs(s: seq<string>)
    ensures s != [] ==> s[|s| - 1] in s
  {
  }

  lemma DropLastElement(s: seq<string>, y: string)
    requires StrictlySorted(s) && s != []
    ensures y in s[..|s| - 1] <==> y in s && y != s[|s| - 1]
  {
    var k := |s| - 1;
    assert s == s[..k] + [s[k]];
    assert forall i :: 0 <= i < k ==> Less(s[i], s[k]);
  }

  /** A set of strings has one strictly sorted listing. */
  lemma {:induction false} SortedListingIsUnique(a: seq<string>, b: seq<string>)
    requires StrictlySorted(a) && StrictlySorted(b)
    requires forall x :: x in a <==> x in b
    ensures a == b
  {
    LastOccurs(a);
    LastOccurs(b);
    if a == [] || b == [] {
    } else {
      var x, y := a[|a| - 1], b[|b| - 1];
      assert x in a && y in b;
      LastIsGreatest(b, x);
      LastIsGreatest(a, y);
      Total(x, y);
      var fa, fb := a[..|a| - 1], b[..|b| - 1];
      forall z | z in fa ensures z in fb { DropLastElement(a, z); DropLastElement(b, z); }
      forall z | z in fb ensures z in fa { DropLastElement(a, z); DropLastElement(b, z); }
      SortedListingIsUnique(fa, fb);
      assert a == a[..|a| - 1] + [x] && b == b[..|b| - 1] + [y];
    }
  }
}
