/** How the analyzer cleans up the list of recommendations a language
    model returned: it keeps a recommendation only when its title, lower-
    cased and stripped, is non-empty and has not been seen before, and
    stops at three. The list's items are arbitrary decoded JSON. */
module Dedup {
  import opened PyValues
  import opened Text

  /** `rec.get('title', '').lower().strip()`: a record that is not a dict
      has no `.get`, and a title that is not a string has no `.lower`;
      both raise. A record without a title gives "". */
  function TitleKey(rec: Json): (r: Result<string>)
    ensures r.Raised? <==> !rec.JObj? || !Field(rec.members, "title", JStr("")).JStr?
    ensures rec.JObj? && Lookup(rec.members, "title").None? ==> r == Ok("")
    ensures r.Ok? ==> r.value == Strip(Lower(Field(rec.members, "title", JStr("")).s))
  {
    match rec
    case JObj(m) =>
      (match Field(m, "title", JStr(""))
       case JStr(t) => Ok(Strip(Lower(t)))
       case _ => Raised)
    case _ => Raised
  }

  /** The loop over the items still to visit, given the keys seen and the
      items kept so far; it stops once three are kept. The key of an item
      is `key`'s, which may raise. */
  function DedupFrom<T>(items: seq<T>, key: T -> Result<string>, seen: set<string>, kept: seq<T>): Result<seq<T>>
    decreases |items|
  {
    if items == [] then Ok(kept)
    else
      match key(items[0])
      case Raised => Raised
      case Ok(k) =>
        var isNew := k != "" && k !in seen;
        var seen' := if isNew then seen + {k} else seen;
        var kept' := if isNew then kept + [items[0]] else kept;
        if |kept'| >= 3 then Ok(kept') else DedupFrom(items[1..], key, seen', kept')
  }

  /** The de-duplication of `_generate_recommendations`, keyed by title. */
  function Dedup(items: seq<Json>): (r: Result<seq<Json>>)
    ensures r.Ok? ==> |r.value| <= 3
  {
    match DedupFrom(items, TitleKey, {}, [])
    case Raised => Raised
    case Ok(kept) => Ok(Take(kept, 3))
  }

  /** One turn of the loop, seen from the items still to visit: `seen'`
      and `kept'` are the state after item `i`, whose key is `k`. */
  lemma DedupFromStep<T>(items: seq<T>, key: T -> Result<string>, i: nat, k: string,
                         seen: set<string>, kept: seq<T>, seen': set<string>, kept': seq<T>)
    requires i < |items| && key(items[i]) == Ok(k)
    requires seen' == if k != "" && k !in seen then seen + {k} else seen
    requires kept' == if k != "" && k !in seen then kept + [items[i]] else kept
    ensures DedupFrom(items[i..], key, seen, kept)
            == if |kept'| >= 3 then Ok(kept') else DedupFrom(items[i + 1..], key, seen', kept')
  {
    assert items[i..][0] == items[i] && items[i..][1..] == items[i + 1..];
  }

  lemma DedupFromRaises<T>(items: seq<T>, key: T -> Result<string>, i: nat, seen: set<string>, kept: seq<T>)
    requires i < |items| && key(items[i]).Raised?
    ensures DedupFrom(items[i..], key, seen, kept) == Raised
  {
    assert items[i..][0] == items[i];
  }

  /** The de-duplication loop of `_generate_recommendations`. */
  method DedupeByTitle(items: seq<Json>) returns (r: Result<seq<Json>>)
    ensures r == Dedup(items)
  {
    var seen: set<string> := {};
    var unique: seq<Json> := [];
    var i := 0;
    while i < |items|
      invariant 0 <= i <= |items|
      invariant |unique| < 3
      invariant DedupFrom(items, TitleKey, {}, []) == DedupFrom(items[i..], TitleKey, seen, unique)
    {
      var rec := items[i];
      var title := TitleKey(rec);
      if title.Raised? {
        DedupFromRaises(items, TitleKey, i, seen, unique);
        return Raised;
      }
      var key := title.value;
      ghost var seen0, unique0 := seen, unique;
      if key != "" && key !in seen {
        seen := seen + {key};
        unique := unique + [rec];
      }
      DedupFromStep(items, TitleKey, i, key, seen0, unique0, seen, unique);
      if |unique| >= 3 {
        assert DedupFrom(items, TitleKey, {}, []) == Ok(unique);
        return Ok(Take(unique, 3));
      }
      assert DedupFrom(items[i..], TitleKey, seen0, unique0) == DedupFrom(items[i + 1..], TitleKey, seen, unique);
      i := i + 1;
    }
    assert items[i..] == [];
    assert DedupFrom(items, TitleKey, {}, []) == Ok(unique);
    return Ok(Take(unique, 3));
  }

  // ---------------------------------------------------------------- reference: first occurrences

  /** `x` has a key, and it is not empty. */
  predicate Named<T>(x: T, key: T -> Result<string>)
  {
    key(x).Ok? && key(x).value != ""
  }

  predicate AllKeyed<T>(items: seq<T>, key: T -> Result<string>)
  {
    forall i :: 0 <= i < |items| ==> key(items[i]).Ok?
  }

  /** The non-empty keys of `s`. */
  function Keys<T>(s: seq<T>, key: T -> Result<string>): set<string>
  {
    set i | 0 <= i < |s| && Named(s[i], key) :: key(s[i]).value
  }

  /** Element `i` has a non-empty key that no earlier element has. */
  predicate IsFirst<T>(s: seq<T>, key: T -> Result<string>, i: int)
    requires 0 <= i < |s|
  {
    Named(s[i], key) && key(s[i]).value !in Keys(s[..i], key)
  }

  /** The elements that are the first with their non-empty key, in order. */
  function Firsts<T>(s: seq<T>, key: T -> Result<string>): seq<T>
  {
    if s == [] then []
    else
      var n := |s| - 1;
      Firsts(s[..n], key) + (if IsFirst(s, key, n) then [s[n]] else [])
  }

  lemma KeysAppend<T>(s: seq<T>, x: T, key: T -> Result<string>)
    ensures Keys(s + [x], key) == Keys(s, key) + (if Named(x, key) then {key(x).value} else {})
  {
    var ext := s + [x];
    assert forall i :: 0 <= i < |s| ==> ext[i] == s[i];
    assert ext[|s|] == x;
    forall k | k in Keys(ext, key) ensures k in Keys(s, key) || (Named(x, key) && k == key(x).value) {
      var i :| 0 <= i < |ext| && Named(ext[i], key) && key(ext[i]).value == k;
      if i < |s| {
        assert k in Keys(s, key);
      }
    }
  }

  lemma FirstsAppend<T>(s: seq<T>, x: T, key: T -> Result<string>)
    ensures Firsts(s + [x], key)
            == Firsts(s, key) + (if Named(x, key) && key(x).value !in Keys(s, key) then [x] else [])
  {
    var ext := s + [x];
    assert ext[..|s|] == s;
  }

  /** The kept elements have exactly the keys of the whole list. */
  lemma {:induction false} FirstsKeys<T>(s: seq<T>, key: T -> Result<string>)
    ensures Keys(Firsts(s, key), key) == Keys(s, key)
  {
    if s != [] {
      var n := |s| - 1;
      var init, x := s[..n], s[n];
      assert s == init + [x];
      FirstsKeys(init, key);
      FirstsAppend(init, x, key);
      KeysAppend(init, x, key);
      var f := Firsts(init, key);
      if Named(x, key) && key(x).value !in Keys(init, key) {
        KeysAppend(f, x, key);
        assert Firsts(s, key) == f + [x];
      } else {
        assert Firsts(s, key) == f + [];
        assert f + [] == f;
      }
    }
  }

  /** Every kept element has a non-empty key, no two share one, and each
      comes from the list. */
  lemma {:induction false} FirstsDistinct<T>(s: seq<T>, key: T -> Result<string>)
    ensures forall i :: 0 <= i < |Firsts(s, key)| ==> Named(Firsts(s, key)[i], key) && Firsts(s, key)[i] in s
    ensures forall i, j :: 0 <= i < j < |Firsts(s, key)| ==> key(Firsts(s, key)[i]) != key(Firsts(s, key)[j])
  {
    if s != [] {
      var n := |s| - 1;
      var init, x := s[..n], s[n];
      assert s == init + [x];
      FirstsDistinct(init, key);
      FirstsKeys(init, key);
      FirstsAppend(init, x, key);
      var f := Firsts(init, key);
      assert forall i :: 0 <= i < |f| ==> f[i] in s by {
        assert forall y :: y in init ==> y in s;
      }
      if Named(x, key) && key(x).value !in Keys(init, key) {
        assert forall i :: 0 <= i < |f| ==> key(f[i]).value in Keys(f, key);
      }
    }
  }

  /** The first-occurrences of a prefix are a prefix of the whole list's. */
  lemma {:induction false} FirstsPrefix<T>(s: seq<T>, n: nat, key: T -> Result<string>)
    requires n <= |s|
    ensures Firsts(s[..n], key) <= Firsts(s, key)
    decreases |s| - n
  {
    if n < |s| {
      FirstsPrefix(s, n + 1, key);
      FirstsAppend(s[..n], s[n], key);
      assert s[..n + 1] == s[..n] + [s[n]];
    } else {
      assert s[..n] == s;
    }
  }

  // ---------------------------------------------------------------- the loop against the reference

  /** One turn of the loop, when its state is the reference's state after
      the first `n` items: afterwards it is the state after `n + 1`. */
  lemma DedupStepFirsts<T>(items: seq<T>, key: T -> Result<string>, n: nat)
    requires n < |items| && key(items[n]).Ok?
    ensures var kept, kept' := Firsts(items[..n], key), Firsts(items[..n + 1], key);
      DedupFrom(items[n..], key, Keys(kept, key), kept)
        == if |kept'| >= 3 then Ok(kept') else DedupFrom(items[n + 1..], key, Keys(kept', key), kept')
  {
    var x := items[n];
    var k := key(x).value;
    var kept, kept' := Firsts(items[..n], key), Firsts(items[..n + 1], key);
    var seen := Keys(kept, key);
    var isNew := k != "" && k !in seen;
    assert kept' == if isNew then kept + [x] else kept by {
      FirstsKeys(items[..n], key);
      assert items[..n + 1] == items[..n] + [x];
      FirstsAppend(items[..n], x, key);
    }
    assert Keys(kept', key) == if isNew then seen + {k} else seen by {
      KeysAppend(kept, x, key);
    }
    DedupFromStep(items, key, n, k, seen, kept, Keys(kept', key), kept');
  }

  /** Continuing the loop after the first `n` items, with the state the
      reference predicts, yields the first three first-occurrences. */
  lemma {:induction false} DedupFromFirsts<T>(items: seq<T>, key: T -> Result<string>, n: nat)
    requires n <= |items| && AllKeyed(items, key) && |Firsts(items[..n], key)| < 3
    ensures DedupFrom(items[n..], key, Keys(Firsts(items[..n], key), key), Firsts(items[..n], key))
            == Ok(Take(Firsts(items, key), 3))
    decreases |items| - n
  {
    if n == |items| {
      assert items[..n] == items;
      assert items[n..] == [];
    } else {
      DedupStepFirsts(items, key, n);
      var kept' := Firsts(items[..n + 1], key);
      if |kept'| >= 3 {
        assert Take(Firsts(items, key), 3) == kept' by {
          assert |kept'| <= |Firsts(items[..n], key)| + 1 by {
            FirstsAppend(items[..n], items[n], key);
            assert items[..n + 1] == items[..n] + [items[n]];
          }
          FirstsPrefix(items, n + 1, key);
          assert Firsts(items, key)[..3] == kept';
        }
      } else {
        DedupFromFirsts(items, key, n + 1);
      }
    }
  }

  /** When every record has a string title (or none), the loop keeps the
      first record of each non-empty title key, in order, up to three. */
  lemma DedupCorrect(items: seq<Json>)
    requires AllKeyed(items, TitleKey)
    ensures Dedup(items) == Ok(Take(Firsts(items, TitleKey), 3))
  {
    assert items[..0] == [] && items[0..] == items;
    assert Keys([], TitleKey) == {};
    DedupFromFirsts(items, TitleKey, 0);
  }

  /** What the de-duplication keeps when every record has a string title
      or none: at most three records of the list, each with a non-empty
      key, no two sharing one, the first of each key in list order. */
  lemma DedupKeepsFirsts(items: seq<Json>)
    requires AllKeyed(items, TitleKey)
    ensures Dedup(items).Ok?
    ensures var kept := Dedup(items).value;
      && |kept| <= 3
      && (forall i :: 0 <= i < |kept| ==> kept[i] in items && Named(kept[i], TitleKey))
      && (forall i, j :: 0 <= i < j < |kept| ==> TitleKey(kept[i]) != TitleKey(kept[j]))
      && kept <= Firsts(items, TitleKey)
  {
    DedupCorrect(items);
    FirstsDistinct(items, TitleKey);
    var firsts := Firsts(items, TitleKey);
    assert forall i :: 0 <= i < |Dedup(items).value| ==> Dedup(items).value[i] == firsts[i];
  }
}
