/** The Python string operations the analyzer applies: `str.lower`,
    `str.strip` with and without an argument, `str.split()`, `in` on
    strings, `str.startswith`, and string ordering as used by `max`. */
module Text {

  /** The characters `str.isspace` accepts, which `split()` and `strip()`
      treat as whitespace. */
  predicate IsSpace(c: char)
  {
    var n := c as int;
    n == 32 || 9 <= n <= 13 || 28 <= n <= 31 || n == 0x85 || n == 0xA0 || n == 0x1680
    || 0x2000 <= n <= 0x200A || n == 0x2028 || n == 0x2029 || n == 0x202F || n == 0x205F
    || n == 0x3000
  }

  function LowerChar(c: char): char
  {
    if 'A' <= c <= 'Z' then (c as int + 32) as char else c
  }

  /** `s.lower()`, for the ASCII letters. */
  function Lower(s: string): (r: string)
    ensures |r| == |s|
    ensures forall i :: 0 <= i < |s| ==> r[i] == LowerChar(s[i])
  {
    seq(|s|, i requires 0 <= i < |s| => LowerChar(s[i]))
  }

  function DropLeading(s: string, drop: char -> bool): (r: string)
    ensures |r| <= |s| && r == s[|s| - |r|..]
    ensures r != [] ==> !drop(r[0])
    ensures forall i :: 0 <= i < |s| - |r| ==> drop(s[i])
  {
    if s == [] || !drop(s[0]) then s else DropLeading(s[1..], drop)
  }

  function DropTrailing(s: string, drop: char -> bool): (r: string)
    ensures |r| <= |s| && r == s[..|r|]
    ensures r != [] ==> !drop(r[|r| - 1])
    ensures forall i :: |r| <= i < |s| ==> drop(s[i])
  {
    if s == [] || !drop(s[|s| - 1]) then s else DropTrailing(s[..|s| - 1], drop)
  }

  /** `r` is the stretch of `s` starting at `i`, and only separators
      come before it and after it. */
  predicate TrimmedAt(s: string, r: string, i: int, sep: char -> bool)
  {
    && 0 <= i <= |s| - |r| && r == s[i..i + |r|]
    && (forall k :: 0 <= k < i ==> sep(s[k]))
    && (forall k :: i + |r| <= k < |s| ==> sep(s[k]))
  }

  /** `s` without the separators at either end. */
  function TrimBoth(s: string, sep: char -> bool): (r: string)
    ensures r != [] ==> !sep(r[0]) && !sep(r[|r| - 1])
    ensures (forall i :: 0 <= i < |s| ==> !sep(s[i])) ==> r == s
  {
    var t := DropLeading(s, sep);
    var r := DropTrailing(t, sep);
    assert r != [] ==> r[0] == t[0];
    r
  }

  /** What `TrimBoth` removes is separators, and only from the two ends. */
  lemma TrimBothTrims(s: string, sep: char -> bool)
    ensures exists i :: TrimmedAt(s, TrimBoth(s, sep), i, sep)
  {
    var t := DropLeading(s, sep);
    assert TrimmedAt(s, TrimBoth(s, sep), |s| - |t|, sep);
  }

  /** `s.strip()`: whitespace removed from both ends. */
  function Strip(s: string): (r: string)
    ensures r != [] ==> !IsSpace(r[0]) && !IsSpace(r[|r| - 1])
    ensures (forall i :: 0 <= i < |s| ==> !IsSpace(s[i])) ==> r == s
  {
    TrimBoth(s, IsSpace)
  }

  /** `strip()` removes whitespace, and only from the two ends. */
  lemma StripTrims(s: string)
    ensures exists i :: TrimmedAt(s, Strip(s), i, IsSpace)
  {
    TrimBothTrims(s, IsSpace);
    var i :| TrimmedAt(s, TrimBoth(s, IsSpace), i, IsSpace);
    assert TrimmedAt(s, Strip(s), i, IsSpace);
  }

  /** Membership in `chars`, as a test on characters. */
  function InSet(chars: set<char>): char -> bool
  {
    c => c in chars
  }

  /** `s.strip(chars)`: the given characters removed from both ends. */
  function StripChars(s: string, chars: set<char>): (r: string)
    ensures |r| <= |s|
    ensures r != [] ==> r[0] !in chars && r[|r| - 1] !in chars
  {
    TrimEnd(TrimStart(s, chars), chars)
  }

  /** `strip(chars)` removes characters of `chars`, and only from the two ends. */
  lemma StripCharsTrims(s: string, chars: set<char>)
    ensures exists i :: TrimmedAt(s, StripChars(s, chars), i, InSet(chars))
  {
    var t := TrimStart(s, chars);
    TrimStartDrops(s, chars);
    TrimEndDrops(t, chars);
    assert TrimmedAt(s, StripChars(s, chars), |s| - |t|, InSet(chars));
  }

  /** `TrimStart` drops a prefix made of characters of `chars`. */
  lemma {:induction false} TrimStartDrops(s: string, chars: set<char>)
    ensures var r := TrimStart(s, chars);
      r == s[|s| - |r|..] && forall k :: 0 <= k < |s| - |r| ==> s[k] in chars
  {
    if s != [] && s[0] in chars {
      TrimStartDrops(s[1..], chars);
    }
  }

  /** `TrimEnd` drops a suffix made of characters of `chars`. */
  lemma {:induction false} TrimEndDrops(s: string, chars: set<char>)
    ensures var r := TrimEnd(s, chars);
      r == s[..|r|] && forall k :: |r| <= k < |s| ==> s[k] in chars
  {
    if s != [] && s[|s| - 1] in chars {
      TrimEndDrops(s[..|s| - 1], chars);
    }
  }

  /** `s` without the given characters at its start. */
  function TrimStart(s: string, chars: set<char>): (r: string)
    ensures |r| <= |s|
    ensures r != [] ==> r[0] !in chars && r[|r| - 1] == s[|s| - 1]
  {
    if s == [] || s[0] !in chars then s else TrimStart(s[1..], chars)
  }

  /** `s` without the given characters at its end. */
  function TrimEnd(s: string, chars: set<char>): (r: string)
    ensures |r| <= |s|
    ensures r != [] ==> r[|r| - 1] !in chars && r[0] == s[0]
  {
    if s == [] || s[|s| - 1] !in chars then s else TrimEnd(s[..|s| - 1], chars)
  }

  /** The longest prefix of `s` without a separator. */
  function WordPrefix(s: string, sep: char -> bool): (r: string)
    ensures |r| <= |s| && r == s[..|r|]
    ensures forall i :: 0 <= i < |r| ==> !sep(r[i])
    ensures |r| < |s| ==> sep(s[|r|])
  {
    if s == [] || sep(s[0]) then [] else [s[0]] + WordPrefix(s[1..], sep)
  }

  /** A run of characters none of which is a separator. */
  predicate IsRun(w: string, sep: char -> bool)
  {
    w != [] && forall i :: 0 <= i < |w| ==> !sep(w[i])
  }

  /** The maximal runs of characters that are not separators. */
  function SplitRuns(s: string, sep: char -> bool): (r: seq<string>)
    ensures forall k :: 0 <= k < |r| ==> IsRun(r[k], sep)
    decreases |s|
  {
    var t := DropLeading(s, sep);
    if t == [] then []
    else
      var w := WordPrefix(t, sep);
      assert IsRun(w, sep) by {
        assert !sep(t[0]);
      }
      var rest := SplitRuns(t[|w|..], sep);
      var r := [w] + rest;
      assert forall k :: 0 <= k < |r| ==> IsRun(r[k], sep) by {
        forall k | 0 <= k < |r| ensures IsRun(r[k], sep) {
          if k > 0 { assert r[k] == rest[k - 1]; }
        }
      }
      r
  }

  /** Every character of `g` is a separator. */
  predicate AllSep(g: string, sep: char -> bool)
  {
    forall i :: 0 <= i < |g| ==> sep(g[i])
  }

  /** The separator stretches around the runs `SplitRuns` finds: the one
      before the first run, those between runs, and the one after the last. */
  function Gaps(s: string, sep: char -> bool): (r: seq<string>)
    ensures |r| >= 1
    ensures s != [] && sep(s[0]) ==> r[0] != []
    decreases |s|
  {
    var t := DropLeading(s, sep);
    var lead := s[..|s| - |t|];
    assert s != [] && sep(s[0]) ==> |t| < |s| by {
      if s != [] && |t| == |s| { assert t == s; }
    }
    if t == [] then [lead]
    else
      var w := WordPrefix(t, sep);
      [lead] + Gaps(t[|w|..], sep)
  }

  /** `gaps[0] + words[0] + gaps[1] + ... + words[n - 1] + gaps[n]`. */
  function Weave(gaps: seq<string>, words: seq<string>): string
    requires |gaps| == |words| + 1
  {
    if words == [] then gaps[0] else gaps[0] + words[0] + Weave(gaps[1..], words[1..])
  }

  /** One step of `SplitRuns` and `Gaps` on a string that still holds a
      run: the leading separators, the run, and what follows it. */
  lemma SplitStep(s: string, sep: char -> bool)
    requires DropLeading(s, sep) != []
    ensures var t := DropLeading(s, sep);
      var w := WordPrefix(t, sep);
      && SplitRuns(s, sep) == [w] + SplitRuns(t[|w|..], sep)
      && Gaps(s, sep) == [s[..|s| - |t|]] + Gaps(t[|w|..], sep)
  {
  }

  /** `s` is its leading separators followed by the rest. */
  lemma LeadThenRest(s: string, sep: char -> bool)
    ensures var t := DropLeading(s, sep); s == s[..|s| - |t|] + t
  {
    var t := DropLeading(s, sep);
    var n := |s| - |t|;
    assert t == s[n..];
    assert s == s[..n] + s[n..];
  }

  /** `t` is its first run followed by the rest, and the rest, unless
      empty, starts with a separator. */
  lemma RunThenRest(t: string, sep: char -> bool)
    ensures var w := WordPrefix(t, sep); t == w + t[|w|..]
    ensures var w := WordPrefix(t, sep); t[|w|..] != [] ==> sep(t[|w|..][0])
  {
    var w := WordPrefix(t, sep);
    assert w == t[..|w|];
  }

  lemma {:induction false} GapsCount(s: string, sep: char -> bool)
    ensures |Gaps(s, sep)| == |SplitRuns(s, sep)| + 1
    decreases |s|
  {
    if DropLeading(s, sep) != [] {
      SplitStep(s, sep);
      var t := DropLeading(s, sep);
      GapsCount(t[|WordPrefix(t, sep)|..], sep);
    }
  }

  /** Weaving one more gap and run in front of a woven string. */
  lemma WeaveCons(s: string, lead: string, t: string, w: string, rest: string, gaps: seq<string>, words: seq<string>)
    requires |gaps| == |words| + 1
    requires rest == Weave(gaps, words) && s == lead + t && t == w + rest
    ensures s == Weave([lead] + gaps, [w] + words)
  {
    assert ([lead] + gaps)[1..] == gaps && ([w] + words)[1..] == words;
    assert s == lead + w + rest;
  }

  /** `SplitRuns` loses nothing but separators: `s` is its runs, in order,
      woven with stretches of separators. */
  lemma {:induction false} SplitRunsWeave(s: string, sep: char -> bool)
    ensures |Gaps(s, sep)| == |SplitRuns(s, sep)| + 1
    ensures s == Weave(Gaps(s, sep), SplitRuns(s, sep))
    decreases |s|
  {
    GapsCount(s, sep);
    var t := DropLeading(s, sep);
    LeadThenRest(s, sep);
    var lead := s[..|s| - |t|];
    if t == [] {
      assert Gaps(s, sep) == [lead] && SplitRuns(s, sep) == [];
    } else {
      SplitStep(s, sep);
      RunThenRest(t, sep);
      var w := WordPrefix(t, sep);
      var rest := t[|w|..];
      SplitRunsWeave(rest, sep);
      WeaveCons(s, lead, t, w, rest, Gaps(rest, sep), SplitRuns(rest, sep));
    }
  }

  /** The leading separators `DropLeading` skips are separators. */
  lemma LeadSeparators(s: string, sep: char -> bool)
    ensures var t := DropLeading(s, sep); AllSep(s[..|s| - |t|], sep)
  {
    var t := DropLeading(s, sep);
    var lead := s[..|s| - |t|];
    forall i | 0 <= i < |lead| ensures sep(lead[i]) {
      assert lead[i] == s[i];
    }
  }

  lemma AllSepCons(lead: string, gaps: seq<string>, sep: char -> bool)
    requires AllSep(lead, sep) && forall k :: 0 <= k < |gaps| ==> AllSep(gaps[k], sep)
    ensures forall k :: 0 <= k < |[lead] + gaps| ==> AllSep(([lead] + gaps)[k], sep)
  {
    forall k | 0 < k < |[lead] + gaps| ensures AllSep(([lead] + gaps)[k], sep) {
      assert ([lead] + gaps)[k] == gaps[k - 1];
    }
  }

  lemma InnerCons(lead: string, gaps: seq<string>)
    requires forall k :: 0 < k < |gaps| - 1 ==> gaps[k] != []
    requires |gaps| >= 2 ==> gaps[0] != []
    ensures forall k :: 0 < k < |[lead] + gaps| - 1 ==> ([lead] + gaps)[k] != []
  {
    forall k | 0 < k < |[lead] + gaps| - 1 ensures ([lead] + gaps)[k] != [] {
      assert ([lead] + gaps)[k] == gaps[k - 1];
    }
  }

  /** The stretches between the runs hold only separators. */
  lemma {:induction false} GapsAreSeparators(s: string, sep: char -> bool)
    ensures forall k :: 0 <= k < |Gaps(s, sep)| ==> AllSep(Gaps(s, sep)[k], sep)
    decreases |s|
  {
    var t := DropLeading(s, sep);
    LeadSeparators(s, sep);
    if t != [] {
      SplitStep(s, sep);
      RunThenRest(t, sep);
      var rest := t[|WordPrefix(t, sep)|..];
      GapsAreSeparators(rest, sep);
      AllSepCons(s[..|s| - |t|], Gaps(rest, sep), sep);
    }
  }

  /** The stretches between two runs are not empty, so each run is
      maximal. */
  lemma {:induction false} InnerGapsNonEmpty(s: string, sep: char -> bool)
    ensures forall k :: 0 < k < |Gaps(s, sep)| - 1 ==> Gaps(s, sep)[k] != []
    decreases |s|
  {
    var t := DropLeading(s, sep);
    if t != [] {
      SplitStep(s, sep);
      RunThenRest(t, sep);
      var rest := t[|WordPrefix(t, sep)|..];
      InnerGapsNonEmpty(rest, sep);
      assert rest == [] ==> |Gaps(rest, sep)| == 1;
      InnerCons(s[..|s| - |t|], Gaps(rest, sep));
    }
  }

  /** `s.split()`: the maximal runs of non-whitespace characters. */
  function Words(s: string): (r: seq<string>)
    ensures forall k :: 0 <= k < |r| ==> IsRun(r[k], IsSpace)
  {
    SplitRuns(s, IsSpace)
  }

  predicate StartsWith(s: string, prefix: string)
  {
    |prefix| <= |s| && s[..|prefix|] == prefix
  }

  /** Python's `sub in s` for strings. */
  predicate Contains(s: string, sub: string)
    decreases |s|
  {
    StartsWith(s, sub) || (s != [] && Contains(s[1..], sub))
  }

  lemma {:induction false} ContainsAt(s: string, sub: string, i: nat)
    requires i + |sub| <= |s| && s[i..i + |sub|] == sub
    ensures Contains(s, sub)
    decreases i
  {
    if i > 0 {
      assert s[1..][i - 1..i - 1 + |sub|] == sub;
      ContainsAt(s[1..], sub, i - 1);
    }
  }

  /** Python's `a <= b` on strings: code point by code point. */
  predicate LexLe(a: string, b: string)
    decreases |a|
  {
    a == [] || (b != [] && (a[0] < b[0] || (a[0] == b[0] && LexLe(a[1..], b[1..]))))
  }

  lemma {:induction false} LexLeTotal(a: string, b: string)
    ensures LexLe(a, b) || LexLe(b, a)
    decreases |a|
  {
    if a != [] && b != [] && a[0] == b[0] {
      LexLeTotal(a[1..], b[1..]);
    }
  }

  lemma {:induction false} LexLeTransitive(a: string, b: string, c: string)
    requires LexLe(a, b) && LexLe(b, c)
    ensures LexLe(a, c)
    decreases |a|
  {
    if a != [] && b != [] && c != [] && a[0] == b[0] && b[0] == c[0] {
      LexLeTransitive(a[1..], b[1..], c[1..]);
    }
  }

  lemma {:induction false} LexLeReflexive(a: string)
    ensures LexLe(a, a)
    decreases |a|
  {
    if a != [] { LexLeReflexive(a[1..]); }
  }

  /** The running maximum of `max` stays an upper bound when one more
      string is compared with it. */
  lemma UpperBoundExtends(prefix: seq<string>, m: string, last: string)
    requires forall x :: x in prefix ==> LexLe(x, m)
    ensures var r := if LexLe(last, m) then m else last;
      forall x :: x in prefix + [last] ==> LexLe(x, r)
  {
    LexLeTotal(last, m);
    LexLeReflexive(last);
    if !LexLe(last, m) {
      forall x | x in prefix ensures LexLe(x, last) { LexLeTransitive(x, m, last); }
    }
  }

  /** Python's `max(strings)`: the greatest string in code-point order. */
  function LexMax(s: seq<string>): (r: string)
    requires |s| > 0
    ensures r in s
    ensures forall x :: x in s ==> LexLe(x, r)
  {
    if |s| == 1 then LexLeReflexive(s[0]); s[0]
    else
      var m := LexMax(s[..|s| - 1]);
      var last := s[|s| - 1];
      UpperBoundExtends(s[..|s| - 1], m, last);
      assert s == s[..|s| - 1] + [last];
      if LexLe(last, m) then m else last
  }
}
