/** Python's `list.sort(key=...)` and `sorted(..., key=...)`: a stable sort
    by an integer key. `reverse=True` keeps stability in Python, so it is
    the same as sorting by the negated key. The library's algorithm is not
    part of the analyzer; it is modelled by insertion sort, which has the
    same result on every input. */
module StableSort {

  predicate SortedBy<T>(s: seq<T>, key: T -> int)
  {
    forall i, j :: 0 <= i < j < |s| ==> key(s[i]) <= key(s[j])
  }

  /** The elements of `s` whose key is `v`, in their order in `s`. */
  function WithKey<T>(s: seq<T>, key: T -> int, v: int): (r: seq<T>)
    ensures |r| <= |s|
  {
    if s == [] then []
    else (if key(s[0]) == v then [s[0]] else []) + WithKey(s[1..], key, v)
  }

  /** Places `x` after every element whose key is at most its own. */
  function Insert<T>(x: T, s: seq<T>, key: T -> int): (r: seq<T>)
    ensures |r| == |s| + 1
  {
    if s == [] then [x]
    else if key(x) < key(s[0]) then [x] + s
    else [s[0]] + Insert(x, s[1..], key)
  }

  function Sort<T>(s: seq<T>, key: T -> int): (r: seq<T>)
    ensures |r| == |s|
  {
    if s == [] then [] else Insert(s[|s| - 1], Sort(s[..|s| - 1], key), key)
  }

  lemma {:induction false} InsertElements<T>(x: T, s: seq<T>, key: T -> int)
    ensures multiset(Insert(x, s, key)) == multiset(s) + multiset{x}
  {
    if s != [] && key(s[0]) <= key(x) {
      InsertElements(x, s[1..], key);
      assert s == [s[0]] + s[1..];
    }
  }

  lemma ConsSorted<T>(h: T, s: seq<T>, key: T -> int)
    requires SortedBy(s, key)
    requires forall y :: y in s ==> key(h) <= key(y)
    ensures SortedBy([h] + s, key)
  {
    var out := [h] + s;
    forall i, j | 0 <= i < j < |out| ensures key(out[i]) <= key(out[j]) {
      assert out[j] == s[j - 1];
      if i > 0 {
        assert out[i] == s[i - 1];
      }
    }
  }

  lemma {:induction false} InsertSorted<T>(x: T, s: seq<T>, key: T -> int)
    requires SortedBy(s, key)
    ensures SortedBy(Insert(x, s, key), key)
  {
    if s == [] {
      assert Insert(x, s, key) == [x];
    } else if key(x) < key(s[0]) {
      assert Insert(x, s, key) == [x] + s;
      forall y | y in s ensures key(x) <= key(y) {
        var j :| 0 <= j < |s| && s[j] == y;
      }
      ConsSorted(x, s, key);
    } else {
      var r := Insert(x, s[1..], key);
      assert Insert(x, s, key) == [s[0]] + r;
      SortedTail(s, key);
      InsertSorted(x, s[1..], key);
      InsertElements(x, s[1..], key);
      forall y | y in r ensures key(s[0]) <= key(y) {
        assert y in multiset(r);
        if y != x {
          var j :| 0 <= j < |s[1..]| && s[1..][j] == y;
          assert s[j + 1] == y;
        }
      }
      ConsSorted(s[0], r, key);
    }
  }

  /** The sort returns a permutation of its input, ordered by key. */
  lemma {:induction false} SortCorrect<T>(s: seq<T>, key: T -> int)
    ensures multiset(Sort(s, key)) == multiset(s)
    ensures SortedBy(Sort(s, key), key)
  {
    if s != [] {
      var init, last := s[..|s| - 1], s[|s| - 1];
      SortCorrect(init, key);
      InsertElements(last, Sort(init, key), key);
      InsertSorted(last, Sort(init, key), key);
      assert s == init + [last];
    }
  }

  lemma WithKeyCons<T>(x: T, s: seq<T>, key: T -> int, v: int)
    ensures WithKey([x] + s, key, v) == (if key(x) == v then [x] else []) + WithKey(s, key, v)
  {
    assert ([x] + s)[0] == x && ([x] + s)[1..] == s;
  }

  lemma {:induction false} WithKeyAppend<T>(s: seq<T>, t: seq<T>, key: T -> int, v: int)
    ensures WithKey(s + t, key, v) == WithKey(s, key, v) + WithKey(t, key, v)
  {
    if s == [] {
      assert s + t == t;
    } else {
      var x, rest := s[0], s[1..];
      WithKeyAppend(rest, t, key, v);
      WithKeyCons(x, rest + t, key, v);
      WithKeyCons(x, rest, key, v);
      assert s == [x] + rest && s + t == [x] + (rest + t);
    }
  }

  /** Cutting a list short keeps, for every key, a prefix of the elements
      with that key. */
  lemma WithKeyPrefix<T>(s: seq<T>, t: seq<T>, key: T -> int, v: int)
    requires s <= t
    ensures WithKey(s, key, v) <= WithKey(t, key, v)
  {
    assert t == s + t[|s|..];
    WithKeyAppend(s, t[|s|..], key, v);
  }

  /** Inserting `x` into a sorted list puts it after every element with
      the same key. */
  lemma {:induction false} InsertStable<T>(x: T, s: seq<T>, key: T -> int, v: int)
    requires SortedBy(s, key)
    ensures WithKey(Insert(x, s, key), key, v)
         == WithKey(s, key, v) + (if key(x) == v then [x] else [])
  {
    if s == [] {
      assert Insert(x, s, key) == [x] + [];
      WithKeyCons(x, [], key, v);
    } else if key(x) < key(s[0]) {
      assert Insert(x, s, key) == [x] + s;
      WithKeyCons(x, s, key, v);
      if key(x) == v {
        NoneWithKey(s, key, v);
      }
    } else {
      var rest := Insert(x, s[1..], key);
      assert Insert(x, s, key) == [s[0]] + rest;
      SortedTail(s, key);
      InsertStable(x, s[1..], key, v);
      WithKeyCons(s[0], rest, key, v);
      WithKeyCons(s[0], s[1..], key, v);
      assert s == [s[0]] + s[1..];
    }
  }

  lemma SortedTail<T>(s: seq<T>, key: T -> int)
    requires s != [] && SortedBy(s, key)
    ensures SortedBy(s[1..], key)
  {
    forall i, j | 0 <= i < j < |s[1..]| ensures key(s[1..][i]) <= key(s[1..][j]) {
      assert s[1..][i] == s[i + 1] && s[1..][j] == s[j + 1];
    }
  }

  lemma {:induction false} NoneWithKey<T>(s: seq<T>, key: T -> int, v: int)
    requires forall i :: 0 <= i < |s| ==> v < key(s[i])
    ensures WithKey(s, key, v) == []
  {
    if s != [] { NoneWithKey(s[1..], key, v); }
  }

  /** Stability: for every key, the elements with that key keep their
      relative order. */
  lemma {:induction false} SortStable<T>(s: seq<T>, key: T -> int, v: int)
    ensures WithKey(Sort(s, key), key, v) == WithKey(s, key, v)
  {
    if s != [] {
      var init, last := s[..|s| - 1], s[|s| - 1];
      var sorted := Sort(init, key);
      assert Sort(s, key) == Insert(last, sorted, key);
      SortStable(init, key, v);
      SortCorrect(init, key);
      InsertStable(last, sorted, key, v);
      assert s == init + [last];
      WithKeyAppend(init, [last], key, v);
      WithKeyCons(last, [], key, v);
      assert [last] + [] == [last];
    }
  }

  /** Ties broken by a rank that the input already increases in: a stable
      sort of such an input orders by key first and rank second. */
  predicate RankIncreasing<T>(s: seq<T>, rank: T -> int)
  {
    forall i, j :: 0 <= i < j < |s| ==> rank(s[i]) < rank(s[j])
  }

  /** `a` comes before `b`: a smaller key, or the same key and a smaller rank. */
  predicate Before<T>(a: T, b: T, key: T -> int, rank: T -> int)
  {
    key(a) < key(b) || (key(a) == key(b) && rank(a) < rank(b))
  }

  predicate KeyThenRank<T>(s: seq<T>, key: T -> int, rank: T -> int)
  {
    forall i, j :: 0 <= i < j < |s| ==> Before(s[i], s[j], key, rank)
  }

  lemma ConsKeyThenRank<T>(h: T, s: seq<T>, key: T -> int, rank: T -> int)
    requires KeyThenRank(s, key, rank)
    requires forall y :: y in s ==> Before(h, y, key, rank)
    ensures KeyThenRank([h] + s, key, rank)
  {
    var out := [h] + s;
    forall i, j | 0 <= i < j < |out| ensures Before(out[i], out[j], key, rank) {
      assert out[j] == s[j - 1];
      if i > 0 {
        assert out[i] == s[i - 1];
      }
    }
  }

  /** The head of a list ordered by key then rank comes before everything
      inserted behind it. */
  lemma HeadBeforeInsert<T>(x: T, s: seq<T>, key: T -> int, rank: T -> int)
    requires s != [] && KeyThenRank(s, key, rank) && key(s[0]) <= key(x)
    requires forall y :: y in s ==> rank(y) < rank(x)
    ensures forall y :: y in Insert(x, s[1..], key) ==> Before(s[0], y, key, rank)
  {
    InsertElements(x, s[1..], key);
    forall y | y in Insert(x, s[1..], key) ensures Before(s[0], y, key, rank) {
      assert y in multiset(Insert(x, s[1..], key));
      if y != x {
        var j :| 0 <= j < |s[1..]| && s[1..][j] == y;
        assert s[1 + j] == y;
      }
    }
  }

  lemma {:induction false} InsertKeyThenRank<T>(x: T, s: seq<T>, key: T -> int, rank: T -> int)
    requires KeyThenRank(s, key, rank)
    requires forall y :: y in s ==> rank(y) < rank(x)
    ensures KeyThenRank(Insert(x, s, key), key, rank)
  {
    if s == [] {
    } else if key(s[0]) <= key(x) {
      assert forall j :: 0 <= j < |s[1..]| ==> s[1..][j] == s[j + 1];
      InsertKeyThenRank(x, s[1..], key, rank);
      HeadBeforeInsert(x, s, key, rank);
      ConsKeyThenRank(s[0], Insert(x, s[1..], key), key, rank);
    } else {
      forall y | y in s ensures Before(x, y, key, rank) {
        var j :| 0 <= j < |s| && s[j] == y;
        if j > 0 {
          assert Before(s[0], s[j], key, rank);
        }
      }
      ConsKeyThenRank(x, s, key, rank);
    }
  }

  lemma {:induction false} SortKeyThenRank<T>(s: seq<T>, key: T -> int, rank: T -> int)
    requires RankIncreasing(s, rank)
    ensures KeyThenRank(Sort(s, key), key, rank)
  {
    if s != [] {
      var init, last := s[..|s| - 1], s[|s| - 1];
      SortKeyThenRank(init, key, rank);
      SortCorrect(init, key);
      forall y | y in Sort(init, key) ensures rank(y) < rank(last) {
        assert y in multiset(Sort(init, key));
        var j :| 0 <= j < |init| && init[j] == y;
      }
      InsertKeyThenRank(last, Sort(init, key), key, rank);
    }
  }

  lemma {:induction false} InsertLast<T>(x: T, s: seq<T>, key: T -> int)
    requires forall i :: 0 <= i < |s| ==> key(s[i]) <= key(x)
    ensures Insert(x, s, key) == s + [x]
  {
    if s != [] {
      InsertLast(x, s[1..], key);
      assert s == [s[0]] + s[1..];
    }
  }

  /** A list whose elements all have the same key is already sorted, and
      the stable sort leaves it as it is. */
  lemma {:induction false} SortEqualKeys<T>(s: seq<T>, key: T -> int, v: int)
    requires forall i :: 0 <= i < |s| ==> key(s[i]) == v
    ensures Sort(s, key) == s
  {
    if s != [] {
      var init := s[..|s| - 1];
      SortEqualKeys(init, key, v);
      InsertLast(s[|s| - 1], init, key);
      assert init + [s[|s| - 1]] == s;
    }
  }
}
