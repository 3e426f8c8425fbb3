/** The content probe (`_analyze_content`): word and paragraph counts, the
    readability band, keyword frequencies with the ten most frequent, and
    three structure flags. The request, the HTML parser and the textstat
    readability formulas are not modelled: the probe starts from the
    page's text, its paragraph texts and the two readability figures. */
module ContentProbe {
  import opened PyValues
  import opened Text
  import StableSort

  datatype ContentPage = ContentPage(
    text: string,             // the page text with scripts and styles removed
    paragraphs: seq<string>,  // the text of each <p>
    subheadings: nat,         // number of h2, h3 and h4 elements
    flesch: real,             // Flesch reading ease of the text
    grade: real)              // Flesch-Kincaid grade of the text

  // ---------------------------------------------------------------- readability

  datatype Readability =
    VeryEasy | Easy | FairlyEasy | Standard | FairlyDifficult | Difficult | VeryDifficult

  /** The band of a Flesch reading-ease score: each band is a half-open
      interval with bounds 90, 80, 70, 60, 50 and 30. */
  function ReadabilityLevel(score: real): (r: Readability)
    ensures r == VeryEasy <==> 90.0 <= score
    ensures r == Easy <==> 80.0 <= score < 90.0
    ensures r == FairlyEasy <==> 70.0 <= score < 80.0
    ensures r == Standard <==> 60.0 <= score < 70.0
    ensures r == FairlyDifficult <==> 50.0 <= score < 60.0
    ensures r == Difficult <==> 30.0 <= score < 50.0
    ensures r == VeryDifficult <==> score < 30.0
  {
    if score >= 90.0 then VeryEasy
    else if score >= 80.0 then Easy
    else if score >= 70.0 then FairlyEasy
    else if score >= 60.0 then Standard
    else if score >= 50.0 then FairlyDifficult
    else if score >= 30.0 then Difficult
    else VeryDifficult
  }

  function Difficulty(r: Readability): nat
  {
    match r
    case VeryEasy => 0
    case Easy => 1
    case FairlyEasy => 2
    case Standard => 3
    case FairlyDifficult => 4
    case Difficult => 5
    case VeryDifficult => 6
  }

  /** A higher reading-ease score never lands in a harder band. */
  lemma ReadabilityMonotone(a: real, b: real)
    requires a <= b
    ensures Difficulty(ReadabilityLevel(b)) <= Difficulty(ReadabilityLevel(a))
  {
  }

  function LevelName(r: Readability): string
  {
    match r
    case VeryEasy => "Very Easy"
    case Easy => "Easy"
    case FairlyEasy => "Fairly Easy"
    case Standard => "Standard"
    case FairlyDifficult => "Fairly Difficult"
    case Difficult => "Difficult"
    case VeryDifficult => "Very Difficult"
  }

  // ---------------------------------------------------------------- rounding

  /** The integer nearest to `y`, ties to the even one. */
  function RoundHalfEven(y: real): (k: int)
    ensures -0.5 <= y - k as real <= 0.5
    ensures (y - k as real == 0.5 || k as real - y == 0.5) ==> k % 2 == 0
  {
    var f := y.Floor;
    var frac := y - f as real;
    if frac < 0.5 then f
    else if frac > 0.5 then f + 1
    else if f % 2 == 0 then f else f + 1
  }

  /** `round(x, 2)`: the nearest multiple of 0.01, ties to even. */
  function Round2(x: real): (r: real)
    ensures r * 100.0 == RoundHalfEven(x * 100.0) as real
    ensures -0.005 <= x - r <= 0.005
  {
    RoundHalfEven(x * 100.0) as real / 100.0
  }

  // ---------------------------------------------------------------- keywords

  const StopWords: seq<string> := ["the", "and", "or", "but", "in", "on", "at", "to", "for", "of", "with", "by"]
  const Punctuation: set<char> := {'.', ',', '!', '?', ';', ':', '"'}

  /** A word as it is counted: lower-cased, punctuation stripped from both ends. */
  function Normalise(word: string): string
  {
    StripChars(Lower(word), Punctuation)
  }

  /** A normalised word is a stretch of the lower-cased word with only
      punctuation around it: no capital letter and no punctuation at
      either end remains. */
  lemma NormaliseShape(word: string)
    ensures var r := Normalise(word);
      && |r| <= |word|
      && (exists i :: TrimmedAt(Lower(word), r, i, InSet(Punctuation)))
      && (r != [] ==> r[0] !in Punctuation && r[|r| - 1] !in Punctuation)
      && forall k :: 0 <= k < |r| ==> !('A' <= r[k] <= 'Z')
  {
    var low := Lower(word);
    var r := Normalise(word);
    StripCharsTrims(low, Punctuation);
    var i :| TrimmedAt(low, r, i, InSet(Punctuation));
    forall k | 0 <= k < |r| ensures !('A' <= r[k] <= 'Z') {
      assert r[k] == low[i + k] == LowerChar(word[i + k]);
    }
  }

  predicate IsKeyword(w: string)
  {
    w != "" && w !in StopWords && |w| > 3
  }

  /** The length test already removes every stop word but "with". */
  lemma StopWordsBarelyMatter(w: string)
    ensures IsKeyword(w) <==> |w| > 3 && w != "with"
  {
  }

  /** The normalised keywords of the text, in order, with repetitions. */
  function Keywords(words: seq<string>): seq<string>
  {
    KeepIf(NormaliseAll(words), IsKeyword)
  }

  function NormaliseAll(words: seq<string>): (r: seq<string>)
    ensures |r| == |words|
  {
    if words == [] then [] else [Normalise(words[0])] + NormaliseAll(words[1..])
  }

  /** The elements of `s` that satisfy `keep`, in order. */
  function KeepIf<T>(s: seq<T>, keep: T -> bool): seq<T>
  {
    if s == [] then []
    else KeepIf(s[..|s| - 1], keep) + (if keep(s[|s| - 1]) then [s[|s| - 1]] else [])
  }

  function Occurrences(ks: seq<string>, k: string): nat
  {
    if ks == [] then 0
    else Occurrences(ks[..|ks| - 1], k) + (if ks[|ks| - 1] == k then 1 else 0)
  }

  /** The distinct elements of `ks` in order of first appearance, which is
      the order a dict keeps its keys in. */
  function FirstSeen(ks: seq<string>): seq<string>
  {
    if ks == [] then []
    else
      var init := FirstSeen(ks[..|ks| - 1]);
      init + (if ks[|ks| - 1] in init then [] else [ks[|ks| - 1]])
  }

  predicate Distinct(s: seq<string>)
  {
    forall i, j :: 0 <= i < j < |s| ==> s[i] != s[j]
  }

  /** FirstSeen keeps every element once and nothing else. */
  lemma {:induction false} FirstSeenCorrect(ks: seq<string>)
    ensures Distinct(FirstSeen(ks))
    ensures forall k :: k in FirstSeen(ks) <==> k in ks
  {
    if ks != [] {
      var init := ks[..|ks| - 1];
      FirstSeenCorrect(init);
      assert ks == init + [ks[|ks| - 1]];
    }
  }

  lemma {:induction false} OccurrencesPositive(ks: seq<string>, k: string)
    ensures Occurrences(ks, k) > 0 <==> k in ks
  {
    if ks != [] {
      var init := ks[..|ks| - 1];
      OccurrencesPositive(init, k);
      assert ks == init + [ks[|ks| - 1]];
    }
  }

  /** `word_freq.items()`: each distinct keyword with its number of
      occurrences, in order of first appearance. */
  function KeywordCounts(words: seq<string>): seq<(string, int)>
  {
    var ks := Keywords(words);
    var order := FirstSeen(ks);
    seq(|order|, i requires 0 <= i < |order| => (order[i], Occurrences(ks, order[i])))
  }

  /** Every keyword of the text appears in the counts exactly once, with
      its number of occurrences, and nothing else does. */
  lemma KeywordCountsCorrect(words: seq<string>)
    ensures var counts := KeywordCounts(words);
      && (forall i, j :: 0 <= i < j < |counts| ==> counts[i].0 != counts[j].0)
      && (forall k :: k in Keywords(words) <==> exists i :: 0 <= i < |counts| && counts[i].0 == k)
      && (forall i :: 0 <= i < |counts| ==>
            counts[i].1 == Occurrences(Keywords(words), counts[i].0) && counts[i].1 > 0
            && IsKeyword(counts[i].0))
  {
    var ks := Keywords(words);
    FirstSeenCorrect(ks);
    KeywordsAreKeywords(words);
    var counts := KeywordCounts(words);
    forall k | k in ks ensures exists i :: 0 <= i < |counts| && counts[i].0 == k {
      var i :| 0 <= i < |FirstSeen(ks)| && FirstSeen(ks)[i] == k;
      assert counts[i].0 == k;
    }
    forall i | 0 <= i < |counts| ensures counts[i].1 > 0 && IsKeyword(counts[i].0) {
      assert counts[i].0 in FirstSeen(ks);
      OccurrencesPositive(ks, counts[i].0);
    }
  }

  lemma {:induction false} KeywordsAreKeywords(words: seq<string>)
    ensures forall k :: k in Keywords(words) ==> IsKeyword(k)
  {
    KeptSatisfy(NormaliseAll(words), IsKeyword);
  }

  lemma {:induction false} KeptSatisfy<T>(s: seq<T>, keep: T -> bool)
    ensures forall x :: x in KeepIf(s, keep) ==> keep(x)
  {
    if s != [] {
      KeptSatisfy(s[..|s| - 1], keep);
    }
  }

  /** One more keyword counted: a new one joins the key order at the end. */
  lemma CountStep(ks: seq<string>, w: string)
    ensures FirstSeen(ks + [w]) == FirstSeen(ks) + (if w in FirstSeen(ks) then [] else [w])
    ensures forall k :: Occurrences(ks + [w], k) == Occurrences(ks, k) + (if w == k then 1 else 0)
  {
    assert (ks + [w])[..|ks|] == ks;
    FirstSeenCorrect(ks);
  }

  /** The dict `freq`, whose keys in insertion order are `order`, holds
      the number of occurrences of each keyword in `ks`. */
  ghost predicate Counted(freq: map<string, int>, order: seq<string>, ks: seq<string>)
  {
    && order == FirstSeen(ks)
    && (forall k :: k in freq <==> k in order)
    && (forall k :: k in freq ==> freq[k] == Occurrences(ks, k))
  }

  /** The dict update `word_freq[w] = word_freq.get(w, 0) + 1` keeps the
      dict equal to the counts of the keywords seen so far. */
  lemma DictStep(ks: seq<string>, freq: map<string, int>, order: seq<string>, w: string)
    requires Counted(freq, order, ks)
    ensures Counted(freq[w := (if w in freq then freq[w] else 0) + 1],
                    if w in freq then order else order + [w], ks + [w])
  {
    CountStep(ks, w);
    FirstSeenCorrect(ks);
    OccurrencesPositive(ks, w);
  }

  /** The counting loop of the probe, building the frequency dict; the
      map holds the counts and `order` the dict's key order. */
  method CountKeywords(words: seq<string>) returns (counts: seq<(string, int)>)
    ensures counts == KeywordCounts(words)
  {
    var freq: map<string, int> := map[];
    var order: seq<string> := [];
    ghost var ks: seq<string> := [];
    var normalised := NormaliseAll(words);
    var i := 0;
    while i < |normalised|
      invariant 0 <= i <= |normalised|
      invariant ks == KeepIf(normalised[..i], IsKeyword)
      invariant Counted(freq, order, ks)
    {
      var w := normalised[i];
      ghost var ks0, freq0, order0 := ks, freq, order;
      if IsKeyword(w) {
        var count := if w in freq then freq[w] else 0;
        if w !in freq {
          order := order + [w];
        }
        freq := freq[w := count + 1];
        ks := ks + [w];
      }
      CountTurn(normalised, i, ks0, freq0, order0, ks, freq, order);
      i := i + 1;
    }
    assert normalised[..i] == normalised;
    counts := seq(|order|, j requires 0 <= j < |order| => (order[j], freq[order[j]]));
    CountsFromDict(words, freq, order, counts);
  }

  /** One turn of the counting loop: the dict update for a keyword, and
      nothing for any other word, keeps the loop's invariant. */
  lemma CountTurn(ns: seq<string>, i: nat, ks: seq<string>, freq: map<string, int>, order: seq<string>,
                  ks': seq<string>, freq': map<string, int>, order': seq<string>)
    requires i < |ns|
    requires ks == KeepIf(ns[..i], IsKeyword) && Counted(freq, order, ks)
    requires IsKeyword(ns[i]) ==>
      && ks' == ks + [ns[i]]
      && freq' == freq[ns[i] := (if ns[i] in freq then freq[ns[i]] else 0) + 1]
      && order' == (if ns[i] in freq then order else order + [ns[i]])
    requires !IsKeyword(ns[i]) ==> ks' == ks && freq' == freq && order' == order
    ensures ks' == KeepIf(ns[..i + 1], IsKeyword) && Counted(freq', order', ks')
  {
    KeepStep(ns, IsKeyword, i);
    if IsKeyword(ns[i]) {
      DictStep(ks, freq, order, ns[i]);
    } else {
      assert ks + [] == ks;
    }
  }

  /** Looking at one more element extends the kept elements by it exactly
      when it satisfies the test. */
  lemma KeepStep<T>(s: seq<T>, keep: T -> bool, i: nat)
    requires i < |s|
    ensures KeepIf(s[..i + 1], keep) == KeepIf(s[..i], keep) + (if keep(s[i]) then [s[i]] else [])
  {
    assert s[..i + 1][..i] == s[..i];
  }

  /** The dict the loop ends with, listed in its key order, is the counts. */
  lemma CountsFromDict(words: seq<string>, freq: map<string, int>, order: seq<string>, counts: seq<(string, int)>)
    requires Counted(freq, order, Keywords(words))
    requires |counts| == |order|
    requires forall j :: 0 <= j < |order| ==> counts[j] == (order[j], freq[order[j]])
    ensures counts == KeywordCounts(words)
  {
  }

  function NegatedCount(p: (string, int)): int { -p.1 }

  /** `sorted(word_freq.items(), key=count, reverse=True)[:10]`. */
  function TopKeywords(counts: seq<(string, int)>): seq<(string, int)>
  {
    Take(StableSort.Sort(counts, NegatedCount), 10)
  }

  /** The top keywords are at most ten of the counted pairs, most
      frequent first, and no pair left out is more frequent than the last
      one kept. */
  lemma TopKeywordsRanked(counts: seq<(string, int)>)
    ensures var top := TopKeywords(counts);
      && |top| == (if |counts| <= 10 then |counts| else 10)
      && (forall p :: p in top ==> p in counts)
      && (forall i, j :: 0 <= i < j < |top| ==> top[i].1 >= top[j].1)
      && (forall p :: p in counts && p !in top ==> |top| == 10 && p.1 <= top[9].1)
  {
    var sorted := StableSort.Sort(counts, NegatedCount);
    StableSort.SortCorrect(counts, NegatedCount);
    var top := TopKeywords(counts);
    forall p | p in top ensures p in counts {
      assert p in sorted;
      assert p in multiset(sorted);
    }
    forall i, j | 0 <= i < j < |top| ensures top[i].1 >= top[j].1 {
      assert NegatedCount(sorted[i]) <= NegatedCount(sorted[j]);
    }
    forall p | p in counts && p !in top ensures |top| == 10 && p.1 <= top[9].1 {
      assert p in multiset(counts);
      assert p in sorted;
      var j :| 0 <= j < |sorted| && sorted[j] == p;
      assert j >= 10;
      assert NegatedCount(sorted[9]) <= NegatedCount(sorted[j]);
    }
  }

  /** Each pair is kept at most as often as it is counted, and pairs with
      the same count are kept in the order they were first seen. */
  lemma TopKeywordsStable(counts: seq<(string, int)>)
    ensures var top := TopKeywords(counts);
      && multiset(top) <= multiset(counts)
      && (forall v :: StableSort.WithKey(top, NegatedCount, v) <= StableSort.WithKey(counts, NegatedCount, v))
  {
    var sorted := StableSort.Sort(counts, NegatedCount);
    var top := TopKeywords(counts);
    assert top <= sorted;
    assert multiset(top) <= multiset(counts) by {
      StableSort.SortCorrect(counts, NegatedCount);
      assert sorted == top + sorted[|top|..];
    }
    forall v ensures StableSort.WithKey(top, NegatedCount, v) <= StableSort.WithKey(counts, NegatedCount, v) {
      StableSort.WithKeyPrefix(top, sorted, NegatedCount, v);
      StableSort.SortStable(counts, NegatedCount, v);
    }
  }

  /** The top keywords are at most ten of the counted pairs, each taken at
      most as often as it is counted, most frequent first, pairs with the
      same count in the order they were first seen, and no pair left out
      is more frequent than the last one kept. */
  lemma TopKeywordsCorrect(counts: seq<(string, int)>)
    ensures var top := TopKeywords(counts);
      && |top| == (if |counts| <= 10 then |counts| else 10)
      && (forall p :: p in top ==> p in counts)
      && multiset(top) <= multiset(counts)
      && (forall v :: StableSort.WithKey(top, NegatedCount, v) <= StableSort.WithKey(counts, NegatedCount, v))
      && (forall i, j :: 0 <= i < j < |top| ==> top[i].1 >= top[j].1)
      && (forall p :: p in counts && p !in top ==> |top| == 10 && p.1 <= top[9].1)
  {
    TopKeywordsRanked(counts);
    TopKeywordsStable(counts);
  }

  // ---------------------------------------------------------------- the probe

  function WordTotal(paragraphs: seq<string>): nat
  {
    if paragraphs == [] then 0 else |Words(paragraphs[0])| + WordTotal(paragraphs[1..])
  }

  /** Python's `s[-n:]`: the last n elements, or all of them. */
  function LastN<T>(s: seq<T>, n: nat): (r: seq<T>)
    ensures |r| == if |s| <= n then |s| else n
    ensures forall i :: 0 <= i < |r| ==> r[i] == s[|s| - |r| + i]
  {
    if |s| <= n then s else s[|s| - n..]
  }

  /** Some paragraph mentions `word` in any letter case. */
  predicate Mentions(paragraphs: seq<string>, word: string)
  {
    exists i :: 0 <= i < |paragraphs| && Contains(Lower(paragraphs[i]), word)
  }

  datatype Structure = Structure(hasIntro: bool, hasConclusion: bool, hasSubheadings: bool)

  datatype ContentReport = ContentReport(
    wordCount: nat, paragraphCount: nat, avgParagraphLength: real,
    fleschScore: real, gradeLevel: real, readabilityLevel: string,
    topKeywords: seq<(string, int)>, keywordDensity: nat, structure: Structure)

  /** The probe's dict, or `{}` when the request, the parser or the
      readability formulas raised. */
  datatype ContentAnalysis = ContentFailed | ContentOk(report: ContentReport)

  /** The content probe; `page` is None when the request, the parser or
      the readability formulas raised. */
  function AnalyzeContent(page: Option<ContentPage>): (r: ContentAnalysis)
    ensures page.None? <==> r.ContentFailed?
    ensures r.ContentOk? ==>
      var rep, pg := r.report, page.value;
      && rep.wordCount == |Words(pg.text)|
      && rep.paragraphCount == |pg.paragraphs|
      && (pg.paragraphs == [] ==> rep.avgParagraphLength == 0.0)
      && (pg.paragraphs != [] ==> -0.005 <= WordTotal(pg.paragraphs) as real / |pg.paragraphs| as real
                                            - rep.avgParagraphLength <= 0.005)
      && (pg.paragraphs != [] ==> rep.avgParagraphLength == Round2(WordTotal(pg.paragraphs) as real / |pg.paragraphs| as real))
      && rep.fleschScore == Round2(pg.flesch) && rep.gradeLevel == Round2(pg.grade)
      && rep.readabilityLevel == LevelName(ReadabilityLevel(pg.flesch))
      && rep.topKeywords == TopKeywords(KeywordCounts(Words(pg.text)))
      && rep.keywordDensity == |KeywordCounts(Words(pg.text))|
      && (rep.structure.hasIntro <==> Mentions(Take(pg.paragraphs, 3), "introduction"))
      && (rep.structure.hasConclusion <==> Mentions(LastN(pg.paragraphs, 3), "conclusion"))
      && (rep.structure.hasSubheadings <==> pg.subheadings > 0)
  {
    match page
    case None => ContentFailed
    case Some(pg) =>
      var words := Words(pg.text);
      var counts := KeywordCounts(words);
      var avg := if pg.paragraphs == [] then 0.0
                 else WordTotal(pg.paragraphs) as real / |pg.paragraphs| as real;
      ContentOk(ContentReport(
        |words|, |pg.paragraphs|, Round2(avg),
        Round2(pg.flesch), Round2(pg.grade), LevelName(ReadabilityLevel(pg.flesch)),
        TopKeywords(counts), |counts|,
        Structure(Mentions(Take(pg.paragraphs, 3), "introduction"),
                  Mentions(LastN(pg.paragraphs, 3), "conclusion"),
                  pg.subheadings > 0)))
  }
}
