/** Sequence vocabulary shared by the whole model.  Every function recurses on
    the last element, which is the order in which the source's loops build
    their lists. */
module Seqs {

  predicate Distinct<T(==)>(s: seq<T>) {
    forall i, j :: 0 <= i < j < |s| ==> s[i] != s[j]
  }

  function Elements<T>(s: seq<T>): set<T> {
    set x | x in s
  }

  function Filter<T(!new)>(p: T -> bool, s: seq<T>): (r: seq<T>) {
    if s == [] then [] else
      var k := |s| - 1;
      Filter(p, s[..k]) + (if p(s[k]) then [s[k]] else [])
  }

  lemma {:induction false} FilterMembers<T(!new)>(p: T -> bool, s: seq<T>)
    ensures forall x :: x in Filter(p, s) <==> x in s && p(x)
  {
    if s != [] {
      var k := |s| - 1;
      assert s == s[..k] + [s[k]];
      FilterMembers(p, s[..k]);
    }
  }

  function Map<A, B>(f: A -> B, s: seq<A>): (r: seq<B>)
    ensures |r| == |s|
    ensures forall i :: 0 <= i < |s| ==> r[i] == f(s[i])
  {
    seq(|s|, i requires 0 <= i < |s| => f(s[i]))
  }

  function Flatten<T>(ss: seq<seq<T>>): (r: seq<T>) {
    if ss == [] then [] else Flatten(ss[..|ss| - 1]) + ss[|ss| - 1]
  }

  lemma FilterSnoc<T(!new)>(p: T -> bool, s: seq<T>, x: T)
    ensures Filter(p, s + [x]) == Filter(p, s) + (if p(x) then [x] else [])
  {
    assert (s + [x])[..|s|] == s;
  }

  lemma FilterDropLast<T(!new)>(p: T -> bool, s: seq<T>)
    requires s != []
    ensures var x, r := s[|s| - 1], Filter(p, s);
            if p(x) then r != [] && r[|r| - 1] == x && Filter(p, s[..|s| - 1]) == r[..|r| - 1]
            else Filter(p, s[..|s| - 1]) == r
  {
  }

  lemma {:induction false} FilterAppend<T(!new)>(p: T -> bool, a: seq<T>, b: seq<T>)
    ensures Filter(p, a + b) == Filter(p, a) + Filter(p, b)
  {
    if b == [] {
      assert a + b == a;
    } else {
      var front, x := b[..|b| - 1], b[|b| - 1];
      calc {
        Filter(p, a + b);
        { assert a + b == (a + front) + [x]; }
        Filter(p, (a + front) + [x]);
        { FilterSnoc(p, a + front, x); }
        Filter(p, a + front) + (if p(x) then [x] else []);
        { FilterAppend(p, a, front); }
        Filter(p, a) + Filter(p, front) + (if p(x) then [x] else []);
        Filter(p, a) + (Filter(p, front) + (if p(x) then [x] else []));
        Filter(p, a) + Filter(p, b);
      }
    }
  }

  lemma {:induction false} FilterAll<T(!new)>(p: T -> bool, s: seq<T>)
    requires forall x :: x in s ==> p(x)
    ensures Filter(p, s) == s
  {
    if s != [] {
      var k := |s| - 1;
      assert s == s[..k] + [s[k]];
      FilterAll(p, s[..k]);
    }
  }

  lemma FilterNone<T(!new)>(p: T -> bool, s: seq<T>)
    requires forall x :: x in s ==> !p(x)
    ensures Filter(p, s) == []
  {
    FilterMembers(p, s);
    assert forall x :: x !in Filter(p, s);
  }

  lemma {:induction false} FilterDistinct<T(!new)>(p: T -> bool, s: seq<T>)
    requires Distinct(s)
    ensures Distinct(Filter(p, s))
  {
    if s != [] {
      var k := |s| - 1;
      FilterDistinct(p, s[..k]);
      FilterMembers(p, s[..k]);
    }
  }

  /** The first element a filter keeps is the first one that satisfies p. */
  lemma {:induction false} FilterHead<T(!new)>(p: T -> bool, s: seq<T>)
    requires Filter(p, s) != []
    ensures exists k :: 0 <= k < |s| && p(s[k]) && s[k] == Filter(p, s)[0] && forall i :: 0 <= i < k ==> !p(s[i])
  {
    var k := |s| - 1;
    assert s == s[..k] + [s[k]];
    if Filter(p, s[..k]) == [] {
      FilterMembers(p, s[..k]);
      forall i | 0 <= i < k ensures !p(s[i]) { assert s[..k][i] == s[i]; }
    } else {
      FilterHead(p, s[..k]);
      var m :| 0 <= m < k && p(s[..k][m]) && s[..k][m] == Filter(p, s[..k])[0] && forall i :: 0 <= i < m ==> !p(s[..k][i]);
      forall i | 0 <= i < m ensures !p(s[i]) { assert s[..k][i] == s[i]; }
      assert p(s[m]) && s[m] == Filter(p, s)[0];
    }
  }

  lemma {:induction false} FilterSame<T(!new)>(p: T -> bool, q: T -> bool, s: seq<T>)
    requires forall x :: x in s ==> (p(x) <==> q(x))
    ensures Filter(p, s) == Filter(q, s)
  {
    if s != [] {
      var k := |s| - 1;
      assert s == s[..k] + [s[k]];
      FilterSame(p, q, s[..k]);
    }
  }

  lemma {:induction false} FilterTwice<T(!new)>(p: T -> bool, q: T -> bool, r: T -> bool, s: seq<T>)
    requires forall x :: x in s ==> (r(x) <==> p(x) && q(x))
    ensures Filter(q, Filter(p, s)) == Filter(r, s)
  {
    if s != [] {
      var k := |s| - 1;
      assert s == s[..k] + [s[k]];
      FilterTwice(p, q, r, s[..k]);
      if p(s[k]) {
        FilterSnoc(q, Filter(p, s[..k]), s[k]);
      } else {
        assert Filter(p, s) == Filter(p, s[..k]);
      }
    }
  }

  /** Each element once, where it first occurs: the keys of a dict that was
      assigned to in this order. */
  function Firsts<T(==)>(s: seq<T>): seq<T> {
    if s == [] then [] else
      var front, x := s[..|s| - 1], s[|s| - 1];
      if x in front then Firsts(front) else Firsts(front) + [x]
  }

  lemma {:induction false} FirstsMeaning<T(!new)>(s: seq<T>)
    ensures var r := Firsts(s);
            && Distinct(r) && (forall x :: x in r <==> x in s)
            && forall i, j :: 0 <= i < j < |r| ==> exists p :: 0 <= p < |s| && s[p] == r[i] && r[j] !in s[..p]
  {
    if s != [] {
      var front, x := s[..|s| - 1], s[|s| - 1];
      assert s == front + [x];
      FirstsMeaning(front);
      var f, r := Firsts(front), Firsts(s);
      forall i, j | 0 <= i < j < |r| ensures exists p :: 0 <= p < |s| && s[p] == r[i] && r[j] !in s[..p] {
        if j < |f| {
          var p :| 0 <= p < |front| && front[p] == f[i] && f[j] !in front[..p];
          assert s[p] == r[i] && s[..p] == front[..p];
        } else {
          var y := f[i];
          assert y in f && y in front;
          var p :| 0 <= p < |front| && front[p] == f[i];
          assert s[p] == r[i] && s[..p] == front[..p];
        }
      }
    }
  }

  lemma {:induction false} FirstsOfDistinct<T>(s: seq<T>)
    requires Distinct(s)
    ensures Firsts(s) == s
  {
    if s != [] { FirstsOfDistinct(s[..|s| - 1]); }
  }

  lemma MapSnoc<A, B>(f: A -> B, s: seq<A>, x: A)
    ensures Map(f, s + [x]) == Map(f, s) + [f(x)]
  {
  }

  lemma MapAppend<A, B>(f: A -> B, a: seq<A>, b: seq<A>)
    ensures Map(f, a + b) == Map(f, a) + Map(f, b)
  {
  }

  lemma FlattenSnoc<T>(ss: seq<seq<T>>, s: seq<T>)
    ensures Flatten(ss + [s]) == Flatten(ss) + s
  {
    assert (ss + [s])[..|ss|] == ss;
  }

  lemma {:induction false} FlattenMember<T>(ss: seq<seq<T>>, x: T)
    ensures x in Flatten(ss) <==> exists i :: 0 <= i < |ss| && x in ss[i]
  {
    if ss != [] {
      var k := |ss| - 1;
      FlattenMember(ss[..k], x);
      assert ss == ss[..k] + [ss[k]];
      forall i | 0 <= i < k ensures ss[..k][i] == ss[i] {}
      if x in Flatten(ss[..k]) {
        var i :| 0 <= i < k && x in ss[..k][i];
        assert x in ss[i];
      }
    }
  }

  /** Pigeonhole: a sequence of distinct elements drawn from a set is no longer
      than the set. */
  lemma {:induction false} DistinctFits<T>(s: seq<T>, space: set<T>)
    requires Distinct(s)
    requires forall i :: 0 <= i < |s| ==> s[i] in space
    ensures |s| <= |space|
  {
    if s != [] {
      var k := |s| - 1;
      assert forall i :: 0 <= i < k ==> s[i] != s[k];
      DistinctFits(s[..k], space - {s[k]});
    }
  }

  /** Concatenating duplicate-free, pairwise disjoint sequences. */
  lemma {:induction false} FlattenDistinct<T(!new)>(ss: seq<seq<T>>)
    requires forall i :: 0 <= i < |ss| ==> Distinct(ss[i])
    requires forall i, j, x :: 0 <= i < |ss| && 0 <= j < |ss| && x in ss[i] && x in ss[j] ==> i == j
    ensures Distinct(Flatten(ss))
  {
    if ss != [] {
      var k := |ss| - 1;
      var front, last := Flatten(ss[..k]), ss[k];
      FlattenDistinct(ss[..k]);
      forall x | x in front ensures x !in last {
        FlattenMember(ss[..k], x);
        var i :| 0 <= i < k && x in ss[..k][i];
        assert x in ss[i];
      }
      forall i, j | 0 <= i < |front| && 0 <= j < |last| ensures front[i] != last[j] {
        assert front[i] in front && last[j] in last;
      }
    }
  }
}
