/** Python's `sorted`, on lists and on sets, and the order it uses on strings and pairs of strings. */
module Orders {

  ghost predicate TotalOrder<T(!new)>(leq: (T, T) -> bool) {
    && (forall x, y :: leq(x, y) || leq(y, x))
    && (forall x, y :: leq(x, y) && leq(y, x) ==> x == y)
    && (forall x, y, z :: leq(x, y) && leq(y, z) ==> leq(x, z))
  }

  ghost predicate SortedBy<T(!new)>(leq: (T, T) -> bool, s: seq<T>) {
    forall i, j :: 0 <= i < j < |s| ==> leq(s[i], s[j])
  }

  function Insert<T(!new)>(leq: (T, T) -> bool, x: T, s: seq<T>): seq<T> {
    if s == [] || leq(x, s[0]) then [x] + s else [s[0]] + Insert(leq, x, s[1..])
  }

  /** `sorted(s)`. */
  function Sort<T(!new)>(leq: (T, T) -> bool, s: seq<T>): seq<T> {
    if s == [] then [] else Insert(leq, s[0], Sort(leq, s[1..]))
  }

  lemma {:induction false} InsertSorts<T(!new)>(leq: (T, T) -> bool, x: T, s: seq<T>)
    requires TotalOrder(leq) && SortedBy(leq, s)
    ensures SortedBy(leq, Insert(leq, x, s))
    ensures multiset(Insert(leq, x, s)) == multiset{x} + multiset(s)
  {
    hide TotalOrder;
    if s == [] {
    } else if leq(x, s[0]) {
      forall k | 0 < k < |s| ensures leq(x, s[k]) { Chain(leq, x, s[0], s[k]); }
    } else {
      assert s == [s[0]] + s[1..];
      InsertSorts(leq, x, s[1..]);
      var rest := Insert(leq, x, s[1..]);
      forall k | 0 <= k < |rest| ensures leq(s[0], rest[k]) {
        assert rest[k] in multiset(rest);
        Compare(leq, s[0], x);
        assert rest[k] == x || rest[k] in s[1..];
      }
    }
  }

  lemma {:induction false} SortSorts<T(!new)>(leq: (T, T) -> bool, s: seq<T>)
    requires TotalOrder(leq)
    ensures SortedBy(leq, Sort(leq, s))
    ensures multiset(Sort(leq, s)) == multiset(s)
    ensures |Sort(leq, s)| == |s|
  {
    if s != [] {
      assert s == [s[0]] + s[1..];
      SortSorts(leq, s[1..]);
      InsertSorts(leq, s[0], Sort(leq, s[1..]));
    }
    assert |multiset(Sort(leq, s))| == |multiset(s)|;
  }

  lemma {:induction false} SortedIsUnique<T(!new)>(leq: (T, T) -> bool, s: seq<T>, t: seq<T>)
    requires TotalOrder(leq) && SortedBy(leq, s) && SortedBy(leq, t)
    requires multiset(s) == multiset(t)
    ensures s == t
  {
    hide TotalOrder;
    assert |multiset(s)| == |multiset(t)|;
    if s != [] {
      assert s[0] in multiset(t) && t[0] in multiset(s);
      FirstIsLeast(leq, s, t[0]);
      FirstIsLeast(leq, t, s[0]);
      Compare(leq, s[0], t[0]);
      assert s == [s[0]] + s[1..] && t == [t[0]] + t[1..];
      assert multiset(s[1..]) == multiset(s) - multiset{s[0]};
      assert multiset(t[1..]) == multiset(t) - multiset{t[0]};
      SortedIsUnique(leq, s[1..], t[1..]);
    }
  }

  lemma FirstIsLeast<T(!new)>(leq: (T, T) -> bool, s: seq<T>, x: T)
    requires TotalOrder(leq) && SortedBy(leq, s) && x in s
    ensures leq(s[0], x)
  {
    hide TotalOrder;
    Compare(leq, x, x);
  }

  /** Sorting depends on the multiset alone, and determines it. */
  lemma SortAgreesIffSameMultiset<T(!new)>(leq: (T, T) -> bool, s: seq<T>, t: seq<T>)
    requires TotalOrder(leq)
    ensures Sort(leq, s) == Sort(leq, t) <==> multiset(s) == multiset(t)
  {
    SortSorts(leq, s);
    SortSorts(leq, t);
    if multiset(s) == multiset(t) { SortedIsUnique(leq, Sort(leq, s), Sort(leq, t)); }
  }

  // ---------------------------------------------------------------- sets

  ghost predicate Ascending<T(!new)>(leq: (T, T) -> bool, s: seq<T>) {
    forall i, j :: 0 <= i < j < |s| ==> leq(s[i], s[j]) && s[i] != s[j]
  }

  ghost predicate Enumerates<T(!new)>(leq: (T, T) -> bool, s: set<T>, r: seq<T>) {
    Ascending(leq, r) && forall x :: x in r <==> x in s
  }

  lemma {:induction false} LeastExists<T(!new)>(leq: (T, T) -> bool, s: set<T>)
    requires TotalOrder(leq) && s != {}
    ensures exists x :: x in s && forall y :: y in s ==> leq(x, y)
  {
    hide TotalOrder;
    var x :| x in s;
    if s == {x} {
      Compare(leq, x, x);
      assert forall y :: y in s ==> leq(x, y);
    } else {
      assert s - {x} != {};
      LeastExists(leq, s - {x});
      var m :| m in s - {x} && forall y :: y in s - {x} ==> leq(m, y);
      Compare(leq, x, m);
      var least := if leq(x, m) then x else m;
      forall y | y in s ensures leq(least, y) {
        Compare(leq, x, x);
        if y != x {
          assert y in s - {x};
          if leq(x, m) { Chain(leq, x, m, y); }
        }
      }
    }
  }

  lemma Compare<T(!new)>(leq: (T, T) -> bool, x: T, y: T)
    requires TotalOrder(leq)
    ensures leq(x, y) || leq(y, x)
    ensures leq(x, y) && leq(y, x) ==> x == y
  {
  }

  lemma Chain<T(!new)>(leq: (T, T) -> bool, x: T, y: T, z: T)
    requires TotalOrder(leq) && leq(x, y) && leq(y, z)
    ensures leq(x, z)
  {
  }

  /** `sorted(s)` of a set. */
  function SortSet<T(!new, ==)>(leq: (T, T) -> bool, s: set<T>): (r: seq<T>)
    requires TotalOrder(leq)
    ensures Enumerates(leq, s, r)
  {
    if s == {} then []
    else
      LeastExists(leq, s);
      var x :| x in s && forall y :: y in s ==> leq(x, y);
      var rest := SortSet(leq, s - {x});
      assert forall k :: 0 <= k < |rest| ==> rest[k] in s - {x};
      [x] + rest
  }

  lemma {:induction false} EnumerationIsUnique<T(!new)>(leq: (T, T) -> bool, s: set<T>, r: seq<T>, q: seq<T>)
    requires TotalOrder(leq) && Enumerates(leq, s, r) && Enumerates(leq, s, q)
    ensures r == q
  {
    hide TotalOrder;
    assert (r != [] ==> r[0] in s) && (q != [] ==> q[0] in s);
    if s != {} {
      var x :| x in s;
      assert x in r && x in q;
      var least := r[0];
      assert least in s && least in q;
      assert q[0] in s && q[0] in r;
      Compare(leq, r[0], q[0]);
      TailEnumerates(leq, s, r);
      TailEnumerates(leq, s, q);
      EnumerationIsUnique(leq, s - {least}, r[1..], q[1..]);
      assert r == [least] + r[1..] && q == [least] + q[1..];
    }
  }

  lemma TailEnumerates<T(!new)>(leq: (T, T) -> bool, s: set<T>, r: seq<T>)
    requires Enumerates(leq, s, r) && r != []
    ensures Enumerates(leq, s - {r[0]}, r[1..])
  {
    assert r == [r[0]] + r[1..];
    assert Ascending(leq, r[1..]);
    forall x ensures x in r[1..] <==> x in s - {r[0]} {
      if x in r[1..] { var k :| 0 <= k < |r[1..]| && r[1..][k] == x; assert r[k + 1] == x; }
    }
  }

  // ---------------------------------------------------------------- strings

  /** Lexicographic order by code point. */
  predicate StringLeq(a: string, b: string) {
    a == [] || (b != [] && (a[0] < b[0] || (a[0] == b[0] && StringLeq(a[1..], b[1..]))))
  }

  /** At `i` the strings differ for the first time, and `a` has the lower character. */
  ghost predicate LowerAt(a: string, b: string, i: nat) {
    i < |a| && i < |b| && a[..i] == b[..i] && a[i] < b[i]
  }

  lemma LowerLater(a: string, b: string, i: nat)
    requires a != [] && b != [] && a[0] == b[0]
    ensures LowerAt(a, b, i + 1) <==> LowerAt(a[1..], b[1..], i)
  {
    if i + 1 < |a| && i + 1 < |b| {
      assert a[..i + 1] == [a[0]] + a[1..][..i] && b[..i + 1] == [b[0]] + b[1..][..i];
      if a[..i + 1] == b[..i + 1] {
        assert forall k :: 0 <= k < i ==> a[1..][..i][k] == a[..i + 1][k + 1] == b[..i + 1][k + 1] == b[1..][..i][k];
      }
    }
  }

  /** A string comes before another if it is a prefix of it, or has the lower character at the first difference. */
  lemma {:induction false} StringLeqIsLexicographic(a: string, b: string)
    ensures StringLeq(a, b) <==> a <= b || exists i: nat :: LowerAt(a, b, i)
  {
    if a != [] && b != [] {
      forall i: nat | LowerAt(a, b, i) && i > 0 ensures a[0] == b[0] { assert a[0] == a[..i][0] && b[0] == b[..i][0]; }
      if a[0] == b[0] {
        StringLeqIsLexicographic(a[1..], b[1..]);
        assert a == [a[0]] + a[1..] && b == [b[0]] + b[1..];
        assert a <= b <==> a[1..] <= b[1..];
        hide StringLeq;
        if i: nat :| LowerAt(a, b, i) { LowerLater(a, b, i - 1); }
        if i: nat :| LowerAt(a[1..], b[1..], i) { LowerLater(a, b, i); }
      } else {
        assert a[0] < b[0] ==> LowerAt(a, b, 0);
      }
    }
  }

  lemma {:induction false} StringTotal(a: string, b: string)
    ensures StringLeq(a, b) || StringLeq(b, a)
    ensures StringLeq(a, b) && StringLeq(b, a) ==> a == b
  {
    if a != [] && b != [] && a[0] == b[0] {
      StringTotal(a[1..], b[1..]);
      assert a == [a[0]] + a[1..] && b == [b[0]] + b[1..];
    }
  }

  lemma {:induction false} StringTransitive(a: string, b: string, c: string)
    requires StringLeq(a, b) && StringLeq(b, c)
    ensures StringLeq(a, c)
  {
    if a != [] && a[0] == b[0] && b[0] == c[0] { StringTransitive(a[1..], b[1..], c[1..]); }
  }

  lemma StringOrder()
    ensures TotalOrder(StringLeq)
  {
    forall a, b ensures StringLeq(a, b) || StringLeq(b, a) { StringTotal(a, b); }
    forall a, b | StringLeq(a, b) && StringLeq(b, a) ensures a == b { StringTotal(a, b); }
    forall a, b, c | StringLeq(a, b) && StringLeq(b, c) ensures StringLeq(a, c) { StringTransitive(a, b, c); }
  }

  /** The order of tuples of two strings. */
  predicate PairLeq(p: (string, string), q: (string, string)) {
    StringLeq(p.0, q.0) && (p.0 == q.0 ==> StringLeq(p.1, q.1))
  }

  lemma PairOrder()
    ensures TotalOrder(PairLeq)
  {
    StringOrder();
    assert TotalOrder(StringLeq);
    forall p, q ensures PairLeq(p, q) || PairLeq(q, p) {
      assert StringLeq(p.0, q.0) || StringLeq(q.0, p.0);
      assert StringLeq(p.1, q.1) || StringLeq(q.1, p.1);
    }
    forall p, q, r | PairLeq(p, q) && PairLeq(q, r) ensures PairLeq(p, r) {
      assert StringLeq(p.0, r.0);
      if p.0 == r.0 { assert p.0 == q.0; }
    }
  }
}
