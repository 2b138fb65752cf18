/** List comprehensions with a condition, as the sources write them. */
module Lists {

  /** `[x for x in s if keep(x)]`, `s.filter(keep)`. */
  function Filter<T>(keep: T -> bool, s: seq<T>): seq<T> {
    if s == [] then []
    else if keep(s[0]) then [s[0]] + Filter(keep, s[1..])
    else Filter(keep, s[1..])
  }

  function Not<T>(p: T -> bool): T -> bool { x => !p(x) }

  function And<T>(p: T -> bool, q: T -> bool): T -> bool { x => p(x) && q(x) }

  lemma {:induction false} FilterAppend<T>(keep: T -> bool, s: seq<T>, t: seq<T>)
    ensures Filter(keep, s + t) == Filter(keep, s) + Filter(keep, t)
  {
    if s == [] {
      assert s + t == t;
    } else {
      assert (s + t)[1..] == s[1..] + t;
      FilterAppend(keep, s[1..], t);
    }
  }

  /** `Filter` keeps exactly the elements that satisfy the condition. */
  lemma {:induction false} FilterKeeps<T>(keep: T -> bool, s: seq<T>)
    ensures forall x :: x in Filter(keep, s) <==> x in s && keep(x)
    ensures |Filter(keep, s)| <= |s|
    ensures (forall x :: x in s ==> keep(x)) ==> Filter(keep, s) == s
  {
    if s != [] {
      FilterKeeps(keep, s[1..]);
      assert s == [s[0]] + s[1..];
    }
  }

  lemma {:induction false} FilterNone<T>(keep: T -> bool, s: seq<T>)
    requires forall x :: x in s ==> !keep(x)
    ensures Filter(keep, s) == []
  {
    if s != [] { FilterNone(keep, s[1..]); }
  }

  lemma {:induction false} FilterTwice<T>(p: T -> bool, q: T -> bool, s: seq<T>)
    ensures Filter(p, Filter(q, s)) == Filter(And(p, q), s)
  {
    if s != [] { FilterTwice(p, q, s[1..]); }
  }

  lemma {:induction false} FilterSame<T>(p: T -> bool, q: T -> bool, s: seq<T>)
    requires forall x :: x in s ==> p(x) == q(x)
    ensures Filter(p, s) == Filter(q, s)
  {
    if s != [] { FilterSame(p, q, s[1..]); }
  }

  lemma {:induction false} FilterSplitsMultiset<T>(keep: T -> bool, s: seq<T>)
    ensures multiset(s) == multiset(Filter(keep, s)) + multiset(Filter(Not(keep), s))
  {
    if s != [] {
      FilterSplitsMultiset(keep, s[1..]);
      assert s == [s[0]] + s[1..];
    }
  }

  ghost predicate Pairwise<T(!new)>(related: (T, T) -> bool, s: seq<T>) {
    forall i, j :: 0 <= i < j < |s| ==> related(s[i], s[j])
  }

  lemma PairwiseCons<T(!new)>(related: (T, T) -> bool, x: T, s: seq<T>)
    requires Pairwise(related, s) && forall y :: y in s ==> related(x, y)
    ensures Pairwise(related, [x] + s)
  {
    var t := [x] + s;
    forall i, j | 0 <= i < j < |t| ensures related(t[i], t[j]) {
      assert t[j] == s[j - 1] && s[j - 1] in s;
    }
  }

  lemma PairwiseTail<T(!new)>(related: (T, T) -> bool, s: seq<T>)
    requires Pairwise(related, s) && s != []
    ensures Pairwise(related, s[1..]) && forall y :: y in s[1..] ==> related(s[0], y)
  {
    forall y | y in s[1..] ensures related(s[0], y) {
      var m :| 0 <= m < |s[1..]| && s[1..][m] == y;
      assert s[m + 1] == y;
    }
  }

  lemma {:induction false} FilterKeepsPairwise<T(!new)>(keep: T -> bool, related: (T, T) -> bool, s: seq<T>)
    requires Pairwise(related, s)
    ensures Pairwise(related, Filter(keep, s))
  {
    hide Pairwise;
    if s == [] {
    } else {
      PairwiseTail(related, s);
      FilterKeepsPairwise(keep, related, s[1..]);
      FilterKeeps(keep, s[1..]);
      if keep(s[0]) { PairwiseCons(related, s[0], Filter(keep, s[1..])); }
    }
  }

  /** `[f(x) for x in s]`. */
  function Map<T, U>(f: T -> U, s: seq<T>): seq<U> {
    if s == [] then [] else [f(s[0])] + Map(f, s[1..])
  }

  /** The lists `f(x)` for x in `s`, one after the other. */
  function FlatMap<T, U>(f: T -> seq<U>, s: seq<T>): seq<U> {
    if s == [] then [] else f(s[0]) + FlatMap(f, s[1..])
  }

  lemma MapOne<T, U>(f: T -> U, x: T)
    ensures Map(f, [x]) == [f(x)]
  {
  }

  lemma {:induction false} InMap<T, U>(f: T -> U, s: seq<T>, y: U)
    ensures y in Map(f, s) <==> exists x :: x in s && f(x) == y
  {
    if s != [] {
      InMap(f, s[1..], y);
      assert s == [s[0]] + s[1..];
    }
  }

  lemma {:induction false} InFlatMap<T, U>(f: T -> seq<U>, s: seq<T>, y: U)
    ensures y in FlatMap(f, s) <==> exists x :: x in s && y in f(x)
  {
    if s != [] {
      InFlatMap(f, s[1..], y);
      assert s == [s[0]] + s[1..];
    }
  }

  lemma {:induction false} MapAppend<T, U>(f: T -> U, s: seq<T>, t: seq<T>)
    ensures Map(f, s + t) == Map(f, s) + Map(f, t)
  {
    if s == [] {
      assert s + t == t;
    } else {
      assert (s + t)[1..] == s[1..] + t;
      MapAppend(f, s[1..], t);
    }
  }

  lemma {:induction false} FlatMapAppend<T, U>(f: T -> seq<U>, s: seq<T>, t: seq<T>)
    ensures FlatMap(f, s + t) == FlatMap(f, s) + FlatMap(f, t)
  {
    if s == [] {
      assert s + t == t;
    } else {
      assert (s + t)[1..] == s[1..] + t;
      FlatMapAppend(f, s[1..], t);
    }
  }

  lemma FlatMapSnoc<T, U>(f: T -> seq<U>, s: seq<T>, k: nat)
    requires k < |s|
    ensures FlatMap(f, s[..k + 1]) == FlatMap(f, s[..k]) + f(s[k])
  {
    assert s[..k + 1] == s[..k] + [s[k]];
    FlatMapAppend(f, s[..k], [s[k]]);
    assert FlatMap(f, [s[k]]) == f(s[k]);
  }

  /** The entries of `s` whose key did not occur before. */
  function FirstByKey<T, K(==)>(key: T -> K, s: seq<T>): seq<T> {
    if s == [] then []
    else
      var before := FirstByKey(key, s[..|s| - 1]);
      if key(s[|s| - 1]) in Keys(key, s[..|s| - 1]) then before else before + [s[|s| - 1]]
  }

  function Keys<T, K>(key: T -> K, s: seq<T>): set<K> {
    if s == [] then {} else Keys(key, s[..|s| - 1]) + {key(s[|s| - 1])}
  }

  lemma KeysSnoc<T, K>(key: T -> K, s: seq<T>, x: T)
    ensures Keys(key, s + [x]) == Keys(key, s) + {key(x)}
  {
    assert (s + [x])[..|s|] == s;
  }

  lemma {:induction false} KeysMembers<T, K>(key: T -> K, s: seq<T>)
    ensures forall k :: k in Keys(key, s) <==> exists x :: x in s && key(x) == k
  {
    if s != [] {
      var before, last := s[..|s| - 1], s[|s| - 1];
      assert s == before + [last];
      KeysMembers(key, before);
    }
  }

  /** It has the same keys, each once, and only entries of `s`. */
  lemma {:induction false} FirstByKeyOnce<T, K>(key: T -> K, s: seq<T>)
    ensures Keys(key, FirstByKey(key, s)) == Keys(key, s)
    ensures forall i, j :: 0 <= i < j < |FirstByKey(key, s)| ==>
        key(FirstByKey(key, s)[i]) != key(FirstByKey(key, s)[j])
    ensures forall x :: x in FirstByKey(key, s) ==> x in s
    ensures s != [] ==> FirstByKey(key, s) != []
  {
    if s != [] {
      var before, last := s[..|s| - 1], s[|s| - 1];
      assert s == before + [last];
      FirstByKeyOnce(key, before);
      FirstByKeySnoc(key, s, |s| - 1);
      assert s[..|s|] == s;
      var kept := FirstByKey(key, before);
      hide FirstByKey, Keys;
      if key(last) !in Keys(key, before) {
        SnocOnce(key, kept, last);
      }
    }
  }

  lemma SnocOnce<T, K>(key: T -> K, kept: seq<T>, last: T)
    requires forall i, j :: 0 <= i < j < |kept| ==> key(kept[i]) != key(kept[j])
    requires key(last) !in Keys(key, kept)
    ensures Keys(key, kept + [last]) == Keys(key, kept) + {key(last)}
    ensures var longer := kept + [last]; forall i, j :: 0 <= i < j < |longer| ==> key(longer[i]) != key(longer[j])
  {
    KeysMembers(key, kept);
    var longer := kept + [last];
    assert longer[..|kept|] == kept;
    forall i | 0 <= i < |kept| ensures key(longer[i]) != key(last) {
      assert longer[i] == kept[i] && kept[i] in kept;
    }
  }

  /** One more entry. */
  lemma FirstByKeySnoc<T, K>(key: T -> K, s: seq<T>, k: nat)
    requires k < |s|
    ensures Keys(key, s[..k + 1]) == Keys(key, s[..k]) + {key(s[k])}
    ensures FirstByKey(key, s[..k + 1]) ==
            FirstByKey(key, s[..k]) + if key(s[k]) in Keys(key, s[..k]) then [] else [s[k]]
  {
    assert s[..k + 1][..k] == s[..k];
  }
}
