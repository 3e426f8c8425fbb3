# Website analyzer: a Dafny model

This project models the website analyzer agent of the repository
(`backend/agents/website_analyzer_agent.py`) and proves properties of the model.
Given a URL, the analyzer:

- checks that the URL has a scheme and a network location;
- answers from a cached result younger than a day;
- otherwise runs four probes on the site: SEO (title, meta description,
  headings, image alt text, internal/external links, schema markup, meta
  tags), performance (the PageSpeed Insights service: category scores,
  Core Web Vitals, opportunities and diagnostics), content (word and
  paragraph counts, readability, keywords, structure) and technical
  (HTTPS, security headers, robots.txt, sitemap.xml);
- normalises the PageSpeed category fractions into four 0..100 scores;
- asks a language model for at most three recommendations, de-duplicated
  by title, and falls back to a rule-based engine when no key is
  configured or the answer is unusable;
- assembles the result.

The modules follow the structure of the analyzer:

| module | what it holds |
|---|---|
| `PyValues` | decoded JSON, `Result` for Python code that may raise, `dict.get`, `int()` truncation, `s[:n]` |
| `Text` | `str.lower`, `str.strip`, `str.split()`, `in` on strings, `startswith`, `max` on strings |
| `StableSort` | `list.sort(key=...)` / `sorted(...)` as a stable insertion sort, with permutation, order and stability proved |
| `SeoProbe`, `ContentProbe`, `TechnicalProbe` | the three page probes, from what the HTML/XML parser and the HTTP requests delivered |
| `PageSpeed` | `_analyze_performance` and `_parse_pagespeed_data`, including the two parsing loops as methods |
| `Scores` | the four `_calculate_*_score` normalisers, the overall score and the weak-area list |
| `Advice` | the recommendation records of the rule-based engines |
| `BasicEngine` | `_generate_basic_recommendations`, its loop as a method, and what it promises |
| `PageSpeedAdvice` | `_generate_basic_recommendations_from_pagespeed`, its padding loop as a method |
| `Dedup` | the title de-duplication loop of `_generate_recommendations`, against a first-occurrence reference |
| `Advisor` | `_generate_recommendations` and `_generate_recommendations_from_pagespeed` |
| `Heuristics` | the three heuristic scorers `_calculate_seo_score`, `_calculate_accessibility_score`, `_calculate_best_practices_score` |
| `Orchestrator` | `analyze_website`, URL validation and cache freshness |

Python exceptions that escape an expression (`.get` on something that is
not a dict, `<` or `*` on `None`) are the `Raised` case of `Result`. Where
the source catches them, the model produces what the `except` branch
returns.

### Where the code and its own comments differ

The model follows the code in each case:

- The four PageSpeed score helpers promise a score "(0-100)" in their
  docstrings (`website_analyzer_agent.py:967`, `:976`, `:985`, `:994`).
  Their code returns `int(fraction * 100)` (`:973`, `:982`, `:991`,
  `:1000`): this truncates toward zero and does not clamp, so a fraction
  outside 0..1 gives a score outside 0..100. `Scores.CategoryScore` states
  the truncation, and `Scores.NormalisedInRange` gives 0..100 only for
  fractions in [0, 1].
- `_generate_recommendations_from_pagespeed` is documented as producing 3
  recommendations (docstring at `:495`, comment "Ensure exactly 3
  recommendations" at `:588`). The code returns `recommendations[:3]`,
  which may hold fewer than three, and wraps an answer that is not a list
  into a list of one item, or of none when the answer is falsy (`:589-592`).
  `Advisor.RecommendFromPageSpeedBounds` states both.
- The prompt of `_generate_recommendations` tells the model not to advise
  on areas scoring 90 or above (`:742`). The code does not check the
  returned items against the scores: it only de-duplicates them by title
  (`:815-826`). `Advisor.DispatchBounds` states this.

### Edge behaviour of the rule-based engines

- `_generate_basic_recommendations` does not stop early when PageSpeed
  failed. Each score helper returns 0 on the error marker (`:968-969`), so
  the engine runs on SEO, Performance and Accessibility
  (`BasicEngine.PageSpeedErrorAdvice`). Only the PageSpeed-only engine
  returns a single "unavailable" item (`:606-612`,
  `PageSpeedAdvice.FromPageSpeedCorrect`).
- When every score is at least 90, `_generate_basic_recommendations`
  filters every area out (`:858`) and returns an empty list
  (`BasicEngine.StrongSiteGetsNothing`). The "general optimization" wording
  at `:739` is only part of the model's prompt.

## Model

| member | source | states |
|---|---|---|
| PyValues.Lookup | backend/agents/website_analyzer_agent.py:255-257 | a key is absent exactly when no member has that name; a value found is that of the last member with the name, as in the dict the JSON decoder builds |
| PyValues.Put | backend/agents/website_analyzer_agent.py:261-262 | on a dict with distinct names, setting a key keeps the names distinct, holds the new pair and every other pair, and drops the key's old pair |
| PyValues.Items | backend/agents/website_analyzer_agent.py:261 | `dict.items()` of a decoded object: one pair per name, and a pair is listed exactly when looking its name up finds its value |
| PyValues.Field | backend/agents/website_analyzer_agent.py:316-322 | `d.get(key, default)` on a dict: the default exactly when the key is absent, else the stored value |
| PyValues.Get | backend/agents/website_analyzer_agent.py:820 | `.get` raises exactly on a value that is not a dict; otherwise the stored value or the default |
| PyValues.Numeric | backend/agents/website_analyzer_agent.py:315 | a JSON value can be compared with a number exactly when it is a number or a boolean |
| PyValues.Trunc | backend/agents/website_analyzer_agent.py:966-973 | `int(x)` truncates toward zero: the result is within 1 of `x` on the side of 0 |
| PyValues.Percent | backend/agents/website_analyzer_agent.py:966-973 | `int(v * 100)` is defined exactly for numbers and booleans, lies in 0..100 for a fraction, and truncates `100 * v`; a string score raises here, unlike Python for a string of digits (see Left out) |
| PyValues.Take | backend/agents/website_analyzer_agent.py:332-338 | `s[:n]` has `min(n, len(s))` elements, each the element at the same position of `s` |
| Text.Lower | backend/agents/website_analyzer_agent.py:370 | same length, every character lower-cased |
| Text.DropLeading | backend/agents/website_analyzer_agent.py:128 | removes exactly the leading run of dropped characters: a suffix of the input that does not start with one |
| Text.DropTrailing | backend/agents/website_analyzer_agent.py:128 | removes exactly the trailing run of dropped characters: a prefix of the input that does not end with one |
| Text.TrimBoth | backend/agents/website_analyzer_agent.py:128 | the result neither starts nor ends with a separator, and an input without separators is unchanged |
| Text.TrimBothTrims | backend/agents/website_analyzer_agent.py:128 | only separators are removed, and only from the ends: the result is a stretch of the input with nothing but separators before and after it |
| Text.Strip | backend/agents/website_analyzer_agent.py:128 | `strip()`: no whitespace at either end, and a string without whitespace is unchanged |
| Text.StripTrims | backend/agents/website_analyzer_agent.py:128 | `strip()` removes only whitespace, and only from the ends: the result is a stretch of the input with nothing but whitespace before and after it |
| Text.StripChars | backend/agents/website_analyzer_agent.py:374 | `strip(chars)`: never longer, and neither end is one of the characters |
| Text.StripCharsTrims | backend/agents/website_analyzer_agent.py:374 | `strip(chars)` removes only the given characters, and only from the ends: the result is a stretch of the input with nothing but those characters before and after it |
| Text.TrimStart | backend/agents/website_analyzer_agent.py:374 | never longer; the first character left is not stripped and the last is kept |
| Text.TrimStartDrops | backend/agents/website_analyzer_agent.py:374 | what is dropped is a prefix made of the given characters |
| Text.TrimEnd | backend/agents/website_analyzer_agent.py:374 | never longer; the last character left is not stripped and the first is kept |
| Text.TrimEndDrops | backend/agents/website_analyzer_agent.py:374 | what is dropped is a suffix made of the given characters |
| Text.WordPrefix | backend/agents/website_analyzer_agent.py:357 | the longest separator-free prefix: a prefix, free of separators, followed by a separator or the end |
| Text.SplitRuns | backend/agents/website_analyzer_agent.py:357 | every piece is a non-empty run without separators |
| Text.Words | backend/agents/website_analyzer_agent.py:357 | `split()`: every word is a non-empty run without whitespace |
| Text.SplitRunsWeave | backend/agents/website_analyzer_agent.py:357 | `split()` loses nothing but separators: the input is the runs, in order, woven with the separator stretches around them |
| Text.GapsAreSeparators | backend/agents/website_analyzer_agent.py:357 | the stretches around the runs hold nothing but separators |
| Text.InnerGapsNonEmpty | backend/agents/website_analyzer_agent.py:357 | the stretch between two runs is not empty, so every run is maximal |
| Text.ContainsAt | backend/agents/website_analyzer_agent.py:464 | a string that occurs at some position is contained (`in`) |
| Text.LexLeTotal | backend/agents/website_analyzer_agent.py:461 | string order is total |
| Text.LexLeTransitive | backend/agents/website_analyzer_agent.py:461 | string order is transitive |
| Text.LexLeReflexive | backend/agents/website_analyzer_agent.py:461 | string order is reflexive |
| Text.UpperBoundExtends | backend/agents/website_analyzer_agent.py:461 | the running maximum stays an upper bound after one more comparison |
| Text.LexMax | backend/agents/website_analyzer_agent.py:461 | `max(dates)` is one of the strings and no string is greater |
| StableSort.WithKey | backend/agents/website_analyzer_agent.py:859 | the elements with a given key never outnumber the list |
| StableSort.Insert | backend/agents/website_analyzer_agent.py:859 | inserting adds exactly one element |
| StableSort.Sort | backend/agents/website_analyzer_agent.py:859 | sorting keeps the length |
| StableSort.InsertElements | backend/agents/website_analyzer_agent.py:859 | inserting adds the element to the multiset and nothing else |
| StableSort.ConsSorted | backend/agents/website_analyzer_agent.py:859 | a head no greater than the rest keeps a sorted list sorted |
| StableSort.InsertSorted | backend/agents/website_analyzer_agent.py:859 | inserting into a sorted list keeps it sorted |
| StableSort.SortCorrect | backend/agents/website_analyzer_agent.py:859 | the sort returns a permutation of its input, ordered by key |
| StableSort.WithKeyCons | backend/agents/website_analyzer_agent.py:859 | the elements with a key of `[x] + s` are `x` (if it has the key) followed by those of `s` |
| StableSort.WithKeyAppend | backend/agents/website_analyzer_agent.py:859 | the elements with a key of a concatenation are those of each part, in order |
| StableSort.WithKeyPrefix | backend/agents/website_analyzer_agent.py:379 | cutting a list short keeps, for every key, a prefix of the elements with that key |
| StableSort.InsertStable | backend/agents/website_analyzer_agent.py:859 | an inserted element goes after every element with the same key |
| StableSort.SortedTail | backend/agents/website_analyzer_agent.py:859 | the tail of a sorted list is sorted |
| StableSort.NoneWithKey | backend/agents/website_analyzer_agent.py:859 | a list whose keys all exceed `v` has no element with key `v` |
| StableSort.SortStable | backend/agents/website_analyzer_agent.py:859 | stability: for every key, the elements with that key keep their input order |
| StableSort.ConsKeyThenRank | backend/agents/website_analyzer_agent.py:859 | a head before everything else keeps a list ordered by key then rank |
| StableSort.HeadBeforeInsert | backend/agents/website_analyzer_agent.py:859 | the head of an ordered list stays before everything after an insertion with a later rank |
| StableSort.InsertKeyThenRank | backend/agents/website_analyzer_agent.py:859 | inserting an element of the highest rank keeps the key-then-rank order |
| StableSort.SortKeyThenRank | backend/agents/website_analyzer_agent.py:859 | sorting a list given in rank order orders it by key, ties by rank |
| StableSort.InsertLast | backend/agents/website_analyzer_agent.py:859 | an element with the largest key is inserted at the end |
| StableSort.SortEqualKeys | backend/agents/website_analyzer_agent.py:859 | a list whose keys are all equal is left as it is |
| SeoProbe.TextFieldOf | backend/agents/website_analyzer_agent.py:177-186 | the text with its length, optimal exactly when the length lies in the range |
| SeoProbe.StripAll | backend/agents/website_analyzer_agent.py:134-141 | each heading text stripped, one for one |
| SeoProbe.StripLevels | backend/agents/website_analyzer_agent.py:134-141 | the `headings` dict: for every level, each heading text stripped, in document order |
| SeoProbe.WithAltCount | backend/agents/website_analyzer_agent.py:144-146 | the images with alt text never outnumber the images, and are all of them exactly when each has one |
| SeoProbe.ImageStatsOf | backend/agents/website_analyzer_agent.py:187-194 | with and without alt text add up to the total; coverage is their ratio, 0 for no images, in [0, 1], and 1 exactly when every image has alt text |
| SeoProbe.ClassifyLink | backend/agents/website_analyzer_agent.py:153-161 | `http` links are external exactly when their network location differs from the page's, `/` links internal, others not counted; a link raises exactly when its URL cannot be parsed |
| SeoProbe.TallyCorrect | backend/agents/website_analyzer_agent.py:148-161 | the link loop raises exactly when some link cannot be classified, and otherwise counts the internal and the external links |
| SeoProbe.KindCountsPartition | backend/agents/website_analyzer_agent.py:148-161 | internal, external and uncounted links add up to all links |
| SeoProbe.CountLinks | backend/agents/website_analyzer_agent.py:148-161 | the link loop as written computes the reference tally |
| SeoProbe.UrlStructureOf | backend/agents/website_analyzer_agent.py:202-206 | `url_structure`: HTTPS exactly when the URL starts with `https://`, `www_usage` exactly when it contains `www.`, and the URL's length |
| SeoProbe.ReportOf | backend/agents/website_analyzer_agent.py:177-211 | the report's title and description with their optimal ranges, the link counts given, and schema markup exactly when a JSON-LD script was found |
| SeoProbe.AnalyzeSeo | backend/agents/website_analyzer_agent.py:118-211 | `{}` exactly when the page is missing or a link fails to parse; otherwise title and description with their optimal ranges (50-60, 150-160), the image statistics, the link counts, schema markup, every heading level's texts stripped, the meta tags as found, and the URL structure |
| SeoProbe.TitleOf | backend/agents/website_analyzer_agent.py:940-943 | `seo_analysis.get('title', {})`: a failed probe reads as an empty, non-optimal title of length 0; `BasicEngine.ReadingsOf` states that the table reads it |
| SeoProbe.DescriptionOf | backend/agents/website_analyzer_agent.py:946-949 | `seo_analysis.get('meta_description', {})`, read the same way; `BasicEngine.ReadingsOf` states that the table reads it |
| SeoProbe.AltCoverageOr | backend/agents/website_analyzer_agent.py:878 | `get('images', {}).get('alt_coverage', default)`, default 1 in the table and 0 in the SEO heuristic; `Heuristics.ProbeCoverageIsFraction` states that it lies in [0, 1] |
| SeoProbe.HasAlt | backend/agents/website_analyzer_agent.py:145-146 | `img.get('alt')` is truthy: present and non-empty; `WithAltCount` states the count |
| SeoProbe.Tally | backend/agents/website_analyzer_agent.py:149-162 | the link loop counts internal and external links and raises where classification does; `TallyCorrect` states the counts |
| SeoProbe.TitleText | backend/agents/website_analyzer_agent.py:127-128 | `title.get_text().strip()` of a present `<title>`, else ""; `ReportOf` states that the title field holds it with its length and the 50..60 optimal window |
| ContentProbe.ReadabilityLevel | backend/agents/website_analyzer_agent.py:1048-1063 | each band is exactly its half-open range of the Flesch score |
| ContentProbe.ReadabilityMonotone | backend/agents/website_analyzer_agent.py:1048-1063 | a higher score never lands in a harder band |
| ContentProbe.RoundHalfEven | backend/agents/website_analyzer_agent.py:384-387 | the nearest integer, ties to the even one |
| ContentProbe.Round2 | backend/agents/website_analyzer_agent.py:384-387 | `round(x, 2)`: a hundred times the result is the nearest integer to a hundred times `x`, ties to even, so the result is within 0.005 of `x` |
| ContentProbe.StopWordsBarelyMatter | backend/agents/website_analyzer_agent.py:371-375 | a word counts exactly when it is longer than 3 characters and is not "with": the length test removes every other stop word |
| ContentProbe.NormaliseAll | backend/agents/website_analyzer_agent.py:374 | one normalised word per word |
| ContentProbe.FirstSeenCorrect | backend/agents/website_analyzer_agent.py:373-376 | the dict's key order holds every keyword once and nothing else |
| ContentProbe.OccurrencesPositive | backend/agents/website_analyzer_agent.py:373-376 | a word has a positive count exactly when it occurs |
| ContentProbe.KeywordCountsCorrect | backend/agents/website_analyzer_agent.py:370-376 | each keyword of the text appears once in the counts with its number of occurrences; nothing else appears |
| ContentProbe.KeywordCounts | backend/agents/website_analyzer_agent.py:370-376 | the keyword dict in key order; what it holds is stated by `KeywordCountsCorrect` |
| ContentProbe.KeywordsAreKeywords | backend/agents/website_analyzer_agent.py:375 | every counted word passes the keyword test |
| ContentProbe.KeptSatisfy | backend/agents/website_analyzer_agent.py:375 | every element kept by a filter satisfies it |
| ContentProbe.CountStep | backend/agents/website_analyzer_agent.py:376 | one more keyword adds one to its count and, when new, joins the key order at the end |
| ContentProbe.DictStep | backend/agents/website_analyzer_agent.py:376 | the update `word_freq[w] = word_freq.get(w, 0) + 1` keeps the dict equal to the counts of the keywords seen |
| ContentProbe.CountKeywords | backend/agents/website_analyzer_agent.py:371-376 | the counting loop as written yields the reference counts, in dict order |
| ContentProbe.CountTurn | backend/agents/website_analyzer_agent.py:373-376 | one turn of the loop keeps the dict equal to the counts of the words visited |
| ContentProbe.KeepStep | backend/agents/website_analyzer_agent.py:375 | one more element extends the kept elements by it exactly when it passes |
| ContentProbe.CountsFromDict | backend/agents/website_analyzer_agent.py:379 | the final dict listed in key order is the reference counts |
| ContentProbe.TopKeywordsCorrect | backend/agents/website_analyzer_agent.py:379 | at most ten counted pairs, each no more often than counted, most frequent first, pairs with equal counts in first-seen order, and no pair left out is more frequent than the last kept |
| ContentProbe.TopKeywords | backend/agents/website_analyzer_agent.py:379 | `sorted(..., reverse=True)[:10]`; what it holds is stated by `TopKeywordsCorrect` |
| ContentProbe.TopKeywordsRanked | backend/agents/website_analyzer_agent.py:379 | at most ten counted pairs, most frequent first, and no pair left out is more frequent than the last kept |
| ContentProbe.TopKeywordsStable | backend/agents/website_analyzer_agent.py:379 | no pair kept more often than counted, and pairs with equal counts kept in first-seen order (Python's sort is stable, also with `reverse=True`) |
| ContentProbe.LastN | backend/agents/website_analyzer_agent.py:396 | `s[-n:]` is the last `min(n, len(s))` elements |
| ContentProbe.AnalyzeContent | backend/agents/website_analyzer_agent.py:344-403 | `{}` exactly when the page is missing; otherwise the word and paragraph counts, the average paragraph length, the Flesch score and the grade each rounded by `Round2`, the readability level, the top keywords, the number of distinct keywords and the structure flags |
| ContentProbe.Normalise | backend/agents/website_analyzer_agent.py:374 | `word.lower().strip('.,!?;:"')`; `NormaliseShape` states that the result is a stretch of the lower-cased word with only punctuation removed around it, with no capital letter and no punctuation at either end |
| ContentProbe.NormaliseShape | backend/agents/website_analyzer_agent.py:374 | a normalised word is a slice of the lower-cased word with only punctuation around it, no longer than the word, without capitals and with no punctuation at either end |
| ContentProbe.IsKeyword | backend/agents/website_analyzer_agent.py:375 | the filter: non-empty, not a stop word and longer than 3; `StopWordsBarelyMatter` states that this is length > 3 and not "with" |
| ContentProbe.Keywords | backend/agents/website_analyzer_agent.py:373-376 | the normalised tokens that pass the filter, in order; `KeywordsAreKeywords` states that each one is a keyword |
| ContentProbe.Occurrences | backend/agents/website_analyzer_agent.py:376 | how often a keyword occurs, the value `word_freq` ends with; `OccurrencesPositive` and `KeywordCountsCorrect` state it |
| ContentProbe.FirstSeen | backend/agents/website_analyzer_agent.py:372-376 | the order in which `word_freq` keeps its keys; `FirstSeenCorrect` states that it holds each token exactly once |
| ContentProbe.WordTotal | backend/agents/website_analyzer_agent.py:367 | the sum of `len(p.get_text().split())` over the paragraphs; `AnalyzeContent` states that the average paragraph length is its rounded mean |
| ContentProbe.Mentions | backend/agents/website_analyzer_agent.py:395-396 | `any(word in p.get_text().lower() for p in …)`; `AnalyzeContent` states that the intro and conclusion flags read the first and last three paragraphs |
| ContentProbe.LevelName | backend/agents/website_analyzer_agent.py:1048-1063 | the level strings "Very Easy" to "Very Difficult" of `_get_readability_level`; `AnalyzeContent` states that the report's level is the name of `ReadabilityLevel` of the Flesch score |
| TechnicalProbe.HeaderValue | backend/agents/website_analyzer_agent.py:419-425 | the default exactly when no header has the name in any case, else the value of a header with that name |
| TechnicalProbe.HeaderLookupIgnoresCase | backend/agents/website_analyzer_agent.py:419-425 | two names that lower-case alike find the same header |
| TechnicalProbe.RobotsInfoOf | backend/agents/website_analyzer_agent.py:428-433 | found exactly for non-empty text; the content is its first 500 characters; the sitemap reference is a case-insensitive `in` |
| TechnicalProbe.Dates | backend/agents/website_analyzer_agent.py:456-459 | exactly the non-empty `lastmod` texts |
| TechnicalProbe.LatestDate | backend/agents/website_analyzer_agent.py:456-461 | None exactly when no entry has a non-empty date; otherwise one of them, not less than any other |
| TechnicalProbe.SitemapInfoOf | backend/agents/website_analyzer_agent.py:436-469 | found exactly on status 200; the count, latest date and robots reference only when the XML parsed |
| TechnicalProbe.AnalyzeTechnical | backend/agents/website_analyzer_agent.py:405-492 | `{}` exactly when the main request failed; otherwise HTTPS from the URL, the four security headers, status, content type, robots and sitemap summaries |
| TechnicalProbe.HasSsl | backend/agents/website_analyzer_agent.py:914 | `technical_analysis.get('ssl', {}).get('has_ssl', False)`: False for a failed probe; `BasicEngine.ReadingsOf` states that the table reads it |
| TechnicalProbe.HasHeader | backend/agents/website_analyzer_agent.py:421-424 | `name in headers` on the case-insensitive header map; `HeaderLookupIgnoresCase` states the case independence |
| TechnicalProbe.SecurityHeadersOf | backend/agents/website_analyzer_agent.py:420-425 | the four security-header flags; `AnalyzeTechnical` states that the report carries them |
| TechnicalProbe.RobotsText | backend/agents/website_analyzer_agent.py:427-433 | the body of robots.txt on status 200, "" otherwise; `AnalyzeTechnical` states that the robots and sitemap summaries read it |
| PageSpeed.ScoresFromTotal | backend/agents/website_analyzer_agent.py:260-266 | the scores loop raises exactly when some category is not a dict |
| PageSpeed.ScoresFrom | backend/agents/website_analyzer_agent.py:259-266 | the `scores` loop; what it yields is stated by `ScoresFromCorrect` |
| PageSpeed.ScoresFromKeys | backend/agents/website_analyzer_agent.py:260-266 | the scores map has exactly the category names as keys |
| PageSpeed.LastWithNameTail | backend/agents/website_analyzer_agent.py:260-266 | the last entry with its name stays last in the tail |
| PageSpeed.LastWithNameHead | backend/agents/website_analyzer_agent.py:260-266 | a head that is last with its name has no namesake after it |
| PageSpeed.ScoresFromEntries | backend/agents/website_analyzer_agent.py:260-266 | each category's entry is the one built from its last occurrence |
| PageSpeed.ScoresFromCorrect | backend/agents/website_analyzer_agent.py:260-266 | the scores map: defined exactly when every category is a dict, keyed by the category names, each entry from the category's last occurrence |
| PageSpeed.ScoresFromKeepsAbsent | backend/agents/website_analyzer_agent.py:260-266 | a key in no category keeps its earlier entry |
| PageSpeed.VitalsOf | backend/agents/website_analyzer_agent.py:269-308 | raises exactly when one of the four audits it reads exists but is not a dict; otherwise FCP, LCP, CLS and INP each absent exactly when their audit is and else copied from it, INP from `interaction-to-next-paint` when present and from the experimental audit otherwise |
| PageSpeed.ClassifyAudit | backend/agents/website_analyzer_agent.py:314-329 | an audit is an opportunity or a diagnostic exactly when its score is a non-null number below 0.9, split by its details type; it raises exactly when it is not a dict, its score cannot be compared, or a low-scoring audit has non-dict details |
| PageSpeed.OpportunityIdsOfAppend | backend/agents/website_analyzer_agent.py:316-323 | the ids of an appended list are those of its parts |
| PageSpeed.DiagnosticIdsOfAppend | backend/agents/website_analyzer_agent.py:324-329 | the ids of an appended list are those of its parts |
| PageSpeed.SplitFromTotal | backend/agents/website_analyzer_agent.py:314-329 | the audit loop raises exactly when some audit raises |
| PageSpeed.SplitFrom | backend/agents/website_analyzer_agent.py:311-330 | the audit loop; what it yields is stated by `SplitFromCorrect` |
| PageSpeed.SplitFromOpportunities | backend/agents/website_analyzer_agent.py:314-323 | the opportunities are exactly the low-scoring audits of type opportunity, in order |
| PageSpeed.SplitFromDiagnostics | backend/agents/website_analyzer_agent.py:314-329 | the diagnostics are exactly the other low-scoring audits, in order |
| PageSpeed.SplitFromCorrect | backend/agents/website_analyzer_agent.py:311-330 | the audit loop, when it does not raise, yields exactly the reference lists |
| PageSpeed.SplitIsPartition | backend/agents/website_analyzer_agent.py:311-330 | no audit lands in both lists |
| PageSpeed.Sections | backend/agents/website_analyzer_agent.py:255-261 | `categories.items()` and `audits.items()` of the response; raises when a level is not a dict; what the parser makes of them is stated by `ParsePageSpeedCorrect` |
| PageSpeed.ParsePageSpeed | backend/agents/website_analyzer_agent.py:252-342 | a result keeps at most ten of each list and the raw data; the error marker is the parse failure, and a non-dict response gives it |
| PageSpeed.ParseSections | backend/agents/website_analyzer_agent.py:259-342 | the parser's work on the two sections: a result keeps at most ten of each list and the raw data; a failure is the parse failure |
| PageSpeed.ParsePageSpeedFails | backend/agents/website_analyzer_agent.py:252-342 | the error marker exactly when a section is not a dict, a category's details are not a dict, the vitals raise or an audit raises |
| PageSpeed.DistinctScores | backend/agents/website_analyzer_agent.py:259-266 | on categories with distinct names, the scores map is keyed by the names and each entry is built from its own category |
| PageSpeed.ParsePageSpeedScores | backend/agents/website_analyzer_agent.py:259-308 | a parsed response scores every category from its own details and carries the vitals of `VitalsOf` |
| PageSpeed.ParsePageSpeedCorrect | backend/agents/website_analyzer_agent.py:252-342 | the error marker exactly when a section is not a dict, a category's details are not a dict, the vitals raise or an audit raises; otherwise every category is scored from its own details and the vitals are those of `VitalsOf` |
| PageSpeed.ParsedAudits | backend/agents/website_analyzer_agent.py:332-338 | the parsed result holds the first ten opportunity and diagnostic ids and a score entry for each category |
| PageSpeed.FirstTenOfEachKind | backend/agents/website_analyzer_agent.py:332-338 | cutting each list to ten keeps the first ten ids of its kind |
| PageSpeed.TakeOpportunityIds | backend/agents/website_analyzer_agent.py:335 | the ids of the first ten opportunities are the first ten ids |
| PageSpeed.TakeDiagnosticIds | backend/agents/website_analyzer_agent.py:336 | the ids of the first ten diagnostics are the first ten ids |
| PageSpeed.ParsePageSpeedData | backend/agents/website_analyzer_agent.py:252-342 | the parser's two loops as written compute the reference parse |
| PageSpeed.AnalyzePerformance | backend/agents/website_analyzer_agent.py:213-250 | the error marker without a key, on a non-200 status (with status and body), a transport fault or an undecodable body; otherwise the parse of the body |
| PageSpeed.EntryOf | backend/agents/website_analyzer_agent.py:261-266 | a score entry: `score`, `title` and `description` with the defaults 0, "" and ""; `ScoresFromEntries` states that each category gets its own entry |
| PageSpeed.VitalFrom | backend/agents/website_analyzer_agent.py:270-308 | a vital record: `numericValue`, `score` and `displayValue` with their defaults, raising on an audit that is not a dict; `VitalsOf` states it through `CopiedVital` |
| PageSpeed.VitalAt | backend/agents/website_analyzer_agent.py:268-292 | the record of one named audit, or absent without that audit; `VitalsOf` states it |
| PageSpeed.InpKey | backend/agents/website_analyzer_agent.py:295-308 | INP comes from `interaction-to-next-paint` when it exists, else from the experimental audit; `VitalsOf` states the preference |
| PageSpeed.BadAudit | backend/agents/website_analyzer_agent.py:268-308 | a read audit that exists and is not a dict; `VitalsOf` raises exactly on one of these |
| PageSpeed.CopiedVital | backend/agents/website_analyzer_agent.py:268-308 | a vitals slot is absent exactly when its audit is, and otherwise holds that audit's three fields; `VitalsOf` states it for all four |
| PageSpeed.BelowThreshold | backend/agents/website_analyzer_agent.py:315 | `audit.get('score') is not None and audit.get('score') < 0.9`; `ClassifyAudit` states it |
| PageSpeed.OpportunityType | backend/agents/website_analyzer_agent.py:316 | `audit.get('details', {}).get('type') == 'opportunity'`; `ClassifyAudit` states it |
| Scores.CategoryScore | backend/agents/website_analyzer_agent.py:966-1000 | 0 for the error marker or a missing category, else `int(score * 100)` truncated, in 0..100 for a fraction; raises exactly on a score that is not a number |
| Scores.NormaliseScores | backend/agents/website_analyzer_agent.py:82-85 | all four are 0 for the error marker; defined exactly when each normaliser is, each score its category's |
| Scores.NormalisedInRange | backend/agents/website_analyzer_agent.py:966-1000 | when every fraction is a number in [0, 1] the four scores exist and lie in 0..100 |
| Scores.OverallScore | backend/agents/website_analyzer_agent.py:696 | the floor of the average: four times it is at most the sum and the sum is less than four times it plus four; it lies between the smallest and the largest score |
| Scores.BelowNinety | backend/agents/website_analyzer_agent.py:850-857 | exactly the categories scoring below 90, in source order |
| Scores.WeakAreasMembers | backend/agents/website_analyzer_agent.py:850-859 | the weak areas are the categories below 90 with their scores, and empty exactly when every score is at least 90 |
| Scores.WeakAreasOrdered | backend/agents/website_analyzer_agent.py:859 | lowest score first, ties in the order SEO, Performance, Accessibility, Best Practices |
| Scores.WeakAreas | backend/agents/website_analyzer_agent.py:850-859 | the categories below 90, lowest first; stated by `WeakAreasMembers` and `WeakAreasOrdered` |
| Scores.RawScore | backend/agents/website_analyzer_agent.py:971-999 | `scores.get(key, {}).get('score', 0)` on the parsed map; `CategoryScore` states the truncation of it |
| Advice.OptionList | backend/agents/website_analyzer_agent.py:862-927 | a pass's result as a list: empty or its one recommendation |
| BasicEngine.ReadingsOf | backend/agents/website_analyzer_agent.py:863-927 | the title length, description text and alt coverage of a successful SEO probe (0, empty and full coverage for a failed one), HTTPS exactly when the technical probe succeeded and found it, LCP and its display from the response (0 and "too long" without an LCP audit), and the performance fraction and its percentage |
| BasicEngine.TitlesDisjoint | backend/agents/website_analyzer_agent.py:863-927 | no title belongs to two categories |
| BasicEngine.SeoPass | backend/agents/website_analyzer_agent.py:863-884 | title under 30, else missing description, else alt coverage under 0.8, else nothing: each exactly under its condition |
| BasicEngine.PerformancePass | backend/agents/website_analyzer_agent.py:886-903 | LCP over 2500 first, else performance under 0.7, else nothing; raises exactly when a compared value is not a number |
| BasicEngine.BestPracticesPass | backend/agents/website_analyzer_agent.py:913-927 | HTTPS advice, with high impact, exactly when the site does not use HTTPS; otherwise security advice of medium impact |
| BasicEngine.Pass | backend/agents/website_analyzer_agent.py:862-927 | at most one recommendation of the area's category; only Performance can raise; Accessibility always advises with its score |
| BasicEngine.BasicRecommendations | backend/agents/website_analyzer_agent.py:838-933 | raises when a normaliser raises; otherwise at most three recommendations |
| BasicEngine.Engine | backend/agents/website_analyzer_agent.py:859-933 | raises when the scores raised; otherwise at most three recommendations |
| BasicEngine.BasicFrom | backend/agents/website_analyzer_agent.py:859-930 | the engine's loop over the weak areas; what it yields is stated by `EngineOver` and `BasicRecommendationsCorrect` |
| BasicEngine.BasicFromStep | backend/agents/website_analyzer_agent.py:862-930 | one turn of the loop: stop once three exist, else go on with the next area |
| BasicEngine.GenerateBasicRecommendations | backend/agents/website_analyzer_agent.py:838-933 | the engine as written computes the reference engine |
| BasicEngine.VisitAreas | backend/agents/website_analyzer_agent.py:862-930 | the loop with its `break` computes the reference loop |
| BasicEngine.Emitted | backend/agents/website_analyzer_agent.py:862-930 | never more recommendations than areas |
| BasicEngine.EarlyStopCutsNothing | backend/agents/website_analyzer_agent.py:929-930 | with three areas at most, the `break` never drops a recommendation |
| BasicEngine.PriorityIsScoreThenRank | backend/agents/website_analyzer_agent.py:859 | priority order is score order, ties in source order |
| BasicEngine.LowestFirstDistinct | backend/agents/website_analyzer_agent.py:862 | recommendations in priority order never share a category or a title |
| BasicEngine.EmittedFromAreas | backend/agents/website_analyzer_agent.py:862-927 | every recommendation comes from a visited area and carries one of its category's titles |
| BasicEngine.EmittedAbove | backend/agents/website_analyzer_agent.py:862-927 | a priority bound on the areas holds for the recommendations |
| BasicEngine.EmittedLowestFirst | backend/agents/website_analyzer_agent.py:862-927 | the passes keep the areas' order |
| BasicEngine.WeakAreasByPriority | backend/agents/website_analyzer_agent.py:859-862 | the three areas visited are in strictly increasing priority |
| BasicEngine.BasicIsEmitted | backend/agents/website_analyzer_agent.py:862-933 | the engine's result is the passes' output over the three weakest areas |
| BasicEngine.EmittedWeak | backend/agents/website_analyzer_agent.py:850-862 | every recommendation is for a category scoring below 90 |
| BasicEngine.BasicRecommendationsCorrect | backend/agents/website_analyzer_agent.py:838-933 | at most three, each for a category below 90 with one of its titles, lowest score first, none sharing a category or title, exactly the passes' output |
| BasicEngine.StrongSiteGetsNothing | backend/agents/website_analyzer_agent.py:850-862 | when every score is at least 90 the engine returns no recommendation |
| BasicEngine.ErrorScores | backend/agents/website_analyzer_agent.py:966-1000 | the PageSpeed error marker normalises to four zeros |
| BasicEngine.ZeroScoresAreas | backend/agents/website_analyzer_agent.py:850-862 | with all scores 0 the areas visited are SEO, Performance, Accessibility |
| BasicEngine.ErrorPasses | backend/agents/website_analyzer_agent.py:862-911 | with LCP and performance 0 those passes give the SEO advice, slow-site advice at 0 and accessibility advice at 0 |
| BasicEngine.ZeroScoresEngine | backend/agents/website_analyzer_agent.py:838-933 | with all scores 0 the engine returns those three passes' output |
| BasicEngine.EngineOver | backend/agents/website_analyzer_agent.py:859-933 | the engine returns the loop's result when it has at most three items |
| BasicEngine.PageSpeedErrorAdvice | backend/agents/website_analyzer_agent.py:838-933 | a PageSpeed failure does not stop the engine: SEO advice, then slow-site and accessibility advice with score 0 |
| BasicEngine.FailedSeoAsksForTitle | backend/agents/website_analyzer_agent.py:863-866 | a failed SEO probe reads as a title of length 0, so the SEO pass asks for a longer title |
| BasicEngine.LcpValue | backend/agents/website_analyzer_agent.py:888-890 | `core_web_vitals.get('lcp', {}).get('value', 0)`: the LCP value, or 0; `ReadingsOf` states it |
| BasicEngine.LcpDisplay | backend/agents/website_analyzer_agent.py:891 | the LCP display string, or the default ("too long" here, "high" in the PageSpeed-only engine); `ReadingsOf` states it |
| BasicEngine.ShortTitle | backend/agents/website_analyzer_agent.py:864-870 | the High "Improve Your Page Title" item quoting the title length; `SeoPass` states that it is chosen exactly when the title is shorter than 30 |
| BasicEngine.MissingDescription | backend/agents/website_analyzer_agent.py:871-877 | the High "Add a Page Description" item; `SeoPass` states that it is chosen exactly when the title is long enough and the description is empty |
| BasicEngine.MissingAltText | backend/agents/website_analyzer_agent.py:878-884 | the Medium "Add Descriptions to Your Images" item; `SeoPass` states that it is chosen exactly when the title is long enough, the description is present and alt coverage is below 0.8 |
| BasicEngine.SlowLoading | backend/agents/website_analyzer_agent.py:890-896 | the High "Speed Up Your Website Loading" item quoting the LCP display; `PerformancePass` states that it is chosen exactly when LCP exceeds 2500 |
| BasicEngine.SlowSite | backend/agents/website_analyzer_agent.py:897-903 | the High "Improve Your Website Speed" item quoting the performance percentage; `PerformancePass` states that it is chosen exactly when LCP is at most 2500 and performance is below 0.7 |
| BasicEngine.AccessibilityAdvice | backend/agents/website_analyzer_agent.py:905-911 | the Medium "Improve Website Accessibility" item quoting the accessibility score; `Pass` states that an Accessibility area always yields it |
| BasicEngine.HttpsAdvice | backend/agents/website_analyzer_agent.py:914-920 | the High "Enable Secure Connection (HTTPS)" item; `BestPracticesPass` states that it is chosen exactly without HTTPS |
| BasicEngine.SecurityAdvice | backend/agents/website_analyzer_agent.py:921-927 | the Medium "Improve Website Security" item quoting the best-practices score; `BestPracticesPass` states that it is chosen exactly with HTTPS |
| PageSpeedAdvice.ReadingsOf | backend/agents/website_analyzer_agent.py:614-645 | the three compared values are the performance fraction, LCP and CLS of the response, the percentage `int(score * 100)` |
| PageSpeedAdvice.GenerateBasicRecommendationsFromPageSpeed | backend/agents/website_analyzer_agent.py:602-656 | the engine as written, with its padding loop, computes the reference engine |
| PageSpeedAdvice.PaddedShape | backend/agents/website_analyzer_agent.py:648-654 | padding yields three items, keeps what was there, and adds only monitoring reminders |
| PageSpeedAdvice.TriggeredChecks | backend/agents/website_analyzer_agent.py:618-645 | each check fires exactly over its threshold, in the fixed order performance, LCP, CLS |
| PageSpeedAdvice.PaddedTriggered | backend/agents/website_analyzer_agent.py:618-654 | the padded list is the fired checks followed by reminders |
| PageSpeedAdvice.PaddedLists | backend/agents/website_analyzer_agent.py:618-654 | each check is listed exactly when its threshold is crossed |
| PageSpeedAdvice.ListsExactly | backend/agents/website_analyzer_agent.py:648-654 | a title is listed exactly when its check fired, since padding never carries it |
| PageSpeedAdvice.PaddedOrder | backend/agents/website_analyzer_agent.py:618-654 | only the four messages, checks in order, none twice, reminders last |
| PageSpeedAdvice.FromPageSpeedCorrect | backend/agents/website_analyzer_agent.py:602-656 | the error marker gives one "unavailable" item; otherwise it raises exactly when a compared value is not a number, and else returns three items with each check present exactly when its threshold is crossed, in order |
| PageSpeedAdvice.FromPageSpeed | backend/agents/website_analyzer_agent.py:602-656 | the PageSpeed-only engine; stated by `FromPageSpeedCorrect` |
| PageSpeedAdvice.HealthySiteGetsReminders | backend/agents/website_analyzer_agent.py:618-656 | a site under all three thresholds gets three monitoring reminders |
| PageSpeedAdvice.ClsValue | backend/agents/website_analyzer_agent.py:638 | `core_web_vitals.get('cls', {}).get('value', 0)`: the CLS value, or 0 without a CLS audit; `ReadingsOf` states that the CLS comparison reads it |
| PageSpeedAdvice.Triggered | backend/agents/website_analyzer_agent.py:614-645 | the three threshold checks `perf < 0.7`, `lcp > 2500` and `cls > 0.1` in that order, raising when any operand is not a number; stated by `TriggeredChecks` and `FromPageSpeedCorrect` |
| PageSpeedAdvice.Padded | backend/agents/website_analyzer_agent.py:647-654 | the padding loop appends monitoring reminders until there are three; stated by `PaddedShape` and `PaddedTriggered` |
| PageSpeedAdvice.ClsDisplay | backend/agents/website_analyzer_agent.py:643 | the CLS display string, or "high" when the response had no CLS audit; the CLS item interpolates it (`TriggeredChecks`) |
| PageSpeedAdvice.UnavailableAdvice | backend/agents/website_analyzer_agent.py:606-612 | the single High "PageSpeed Analysis Unavailable" item of the PageSpeed-only engine; `FromPageSpeedCorrect` states that the error marker yields exactly it |
| PageSpeedAdvice.PageLoadAdvice | backend/agents/website_analyzer_agent.py:619-625 | the High "Improve Page Load Performance" item quoting `int(perf * 100)`; `TriggeredChecks` states that it is added exactly when performance is below 0.7 |
| PageSpeedAdvice.LcpAdvice | backend/agents/website_analyzer_agent.py:629-635 | the High "Optimize Largest Contentful Paint (LCP)" item quoting the LCP display; `TriggeredChecks` states that it is added exactly when LCP exceeds 2500 |
| PageSpeedAdvice.ClsAdvice | backend/agents/website_analyzer_agent.py:639-645 | the Medium "Reduce Cumulative Layout Shift (CLS)" item quoting the CLS display; `TriggeredChecks` states that it is added exactly when CLS exceeds 0.1 |
| PageSpeedAdvice.MonitoringAdvice | backend/agents/website_analyzer_agent.py:648-654 | the Low "Continue Monitoring Performance" reminder; `PaddedShape` and `FromPageSpeedCorrect` state that it fills the list up to three after the triggered items |
| Dedup.TitleKey | backend/agents/website_analyzer_agent.py:820 | raises exactly on a record that is not a dict or a title that is not a string; a missing title gives ""; otherwise the lower-cased stripped title |
| Dedup.Dedup | backend/agents/website_analyzer_agent.py:815-826 | never more than three records |
| Dedup.DedupFromStep | backend/agents/website_analyzer_agent.py:818-825 | one turn of the loop: a new non-empty key is kept and recorded, and the loop stops at three |
| Dedup.DedupFromRaises | backend/agents/website_analyzer_agent.py:820 | a record whose key raises makes the loop raise |
| Dedup.DedupeByTitle | backend/agents/website_analyzer_agent.py:815-826 | the loop as written computes the reference de-duplication |
| Dedup.DedupFrom | backend/agents/website_analyzer_agent.py:815-826 | the de-duplication loop; stated by `DedupFromStep`, `DedupFromRaises` and `DedupCorrect` |
| Dedup.KeysAppend | backend/agents/website_analyzer_agent.py:821-823 | the keys of a list extended by one record gain that record's key |
| Dedup.FirstsAppend | backend/agents/website_analyzer_agent.py:821-823 | a record is a first occurrence exactly when its key is non-empty and new |
| Dedup.FirstsKeys | backend/agents/website_analyzer_agent.py:815-826 | the first occurrences have the same keys as the whole list |
| Dedup.FirstsDistinct | backend/agents/website_analyzer_agent.py:815-826 | the first occurrences have non-empty, pairwise different keys and come from the list |
| Dedup.FirstsPrefix | backend/agents/website_analyzer_agent.py:815-826 | the first occurrences of a prefix are a prefix of the whole list's |
| Dedup.DedupStepFirsts | backend/agents/website_analyzer_agent.py:818-825 | one turn moves the loop's state from the reference state after `n` items to that after `n + 1` |
| Dedup.DedupFromFirsts | backend/agents/website_analyzer_agent.py:815-826 | continuing from the reference state yields the first three first occurrences |
| Dedup.DedupCorrect | backend/agents/website_analyzer_agent.py:815-826 | when every title key is defined, the result is the first three first occurrences |
| Dedup.DedupKeepsFirsts | backend/agents/website_analyzer_agent.py:815-826 | at most three records of the list, non-empty and distinct keys, the first of each key in list order |
| Advisor.Rules | backend/agents/website_analyzer_agent.py:663 | the rule-based recommendations, one for one |
| Advisor.Models | backend/agents/website_analyzer_agent.py:826 | the model's records, one for one |
| Advisor.Wrapped | backend/agents/website_analyzer_agent.py:827-828 | a non-list answer becomes a one-item list exactly when it is truthy, else `[]` |
| Advisor.DispatchBounds | backend/agents/website_analyzer_agent.py:658-836 | never more than three items, raising only where the rule-based engine raises, that engine without a key, after a normaliser raised or after a failed exchange, the de-duplicated list for a list answer, and the wrapped answer otherwise |
| Advisor.Dispatch | backend/agents/website_analyzer_agent.py:658-836 | the choice between the model's answer and the rule-based engine; stated by `DispatchBounds` |
| Advisor.RecommendBounds | backend/agents/website_analyzer_agent.py:658-836 | at most three recommendations; raises only where the rule-based engine does and always when a normaliser raises; without a key it is that engine |
| Advisor.Recommend | backend/agents/website_analyzer_agent.py:658-836 | `_generate_recommendations`; stated by `RecommendBounds` |
| Advisor.RecommendFromPageSpeedBounds | backend/agents/website_analyzer_agent.py:494-600 | the error marker gives the configuration item; without a key or after a failed exchange, exactly the PageSpeed-only engine's answer, which has three items when it does not raise; a list answer gives its first three items; any other answer is wrapped into a list of one item, or none when it is falsy; at most three items, and it raises only where the PageSpeed-only engine does |
| Advisor.RecommendFromPageSpeed | backend/agents/website_analyzer_agent.py:494-600 | `_generate_recommendations_from_pagespeed`: the configuration item, the fallback, the first three items of a list or the wrapped answer; stated case by case by `RecommendFromPageSpeedBounds` |
| Advisor.RulesOf | backend/agents/website_analyzer_agent.py:597-600 | a rule-based engine's list tagged item by item, with its exception passed through; `RecommendFromPageSpeedBounds` and `RecommendBounds` state the fallback through it |
| Advisor.ConfigurationAdvice | backend/agents/website_analyzer_agent.py:497-503 | the single "PageSpeed Analysis Unavailable" item for the error marker; `RecommendFromPageSpeedBounds` states that the marker yields it |
| Heuristics.CountTrue | backend/agents/website_analyzer_agent.py:961 | the number of true values, all of them exactly when every value is true |
| Heuristics.Share | backend/agents/website_analyzer_agent.py:961-962 | `int(k / n * weight)`: 0 for `n == 0`, the truncated share in [0, weight], the whole weight exactly when every one counted |
| Heuristics.ShareOfWeight | backend/agents/website_analyzer_agent.py:962 | the truncated share lies in [0, weight] and is the weight exactly when `k == n` |
| Heuristics.Cap | backend/agents/website_analyzer_agent.py:964 | `min(score, 100)` |
| Heuristics.MetaTagValues | backend/agents/website_analyzer_agent.py:960 | a failed probe has no meta tags |
| Heuristics.CalculateSeoScore | backend/agents/website_analyzer_agent.py:935-964 | the scorer as written adds the five parts and caps at 100 |
| Heuristics.SeoPoints | backend/agents/website_analyzer_agent.py:935-964 | the SEO points before the cap; stated by `CalculateSeoScore` and `SeoScoreRange` |
| Heuristics.CountTags | backend/agents/website_analyzer_agent.py:961 | the counting loop yields the number of true values |
| Heuristics.CountTrueSnoc | backend/agents/website_analyzer_agent.py:961 | one more value adds one exactly when it is true |
| Heuristics.SeoScoreRange | backend/agents/website_analyzer_agent.py:935-964 | with a fractional alt coverage the SEO points lie in 0..100, a failed probe scores 0, and 100 means every check is met |
| Heuristics.ProbeCoverageIsFraction | backend/agents/website_analyzer_agent.py:193 | the probe's alt coverage is always a fraction |
| Heuristics.HeaderFlags | backend/agents/website_analyzer_agent.py:1010-1013 | a failed probe has no header flags |
| Heuristics.CalculateAccessibilityScore | backend/agents/website_analyzer_agent.py:1002-1015 | the scorer as written adds HTTPS and the header share and caps at 100 |
| Heuristics.AccessibilityScoreRange | backend/agents/website_analyzer_agent.py:1002-1015 | the accessibility points lie in 0..50, a failed probe scores 0, and 50 means HTTPS and all four headers |
| Heuristics.CalculateBestPracticesScore | backend/agents/website_analyzer_agent.py:1017-1038 | the scorer as written adds HTTPS, the header share, sitemap and robots, and caps at 100 |
| Heuristics.BestPracticesScoreRange | backend/agents/website_analyzer_agent.py:1017-1038 | the points lie in 0..100, a failed probe scores 0, and 100 means HTTPS, all four headers, a sitemap and robots.txt |
| Heuristics.TextPoints | backend/agents/website_analyzer_agent.py:940-949 | 20 points for an optimal text, 10 for any other non-empty one, else 0; `SeoScoreRange` states the total range |
| Heuristics.AccessibilityPoints | backend/agents/website_analyzer_agent.py:1002-1015 | 20 for HTTPS plus the security-header share of 30; `AccessibilityScoreRange` states that it lies in 0..50, with 50 exactly when everything is present |
| Heuristics.BestPracticesPoints | backend/agents/website_analyzer_agent.py:1017-1038 | 30 for HTTPS, a header share of 40, and 15 each for the sitemap and robots.txt; `BestPracticesScoreRange` states the range |
| Orchestrator.AssembleCorrect | backend/agents/website_analyzer_agent.py:79-106 | the run fails exactly when the recommendation step raises, and otherwise keeps the URL, the time, the scores, the recommendations and the probe results, also under `raw_data` |
| Orchestrator.AnalyzeWebsiteFresh | backend/agents/website_analyzer_agent.py:53-116 | past validation and cache, a run fails exactly when the recommendations raise; otherwise it is stamped now with at most three recommendations, the normalised scores and the probe results |
| Orchestrator.AnalyzeWebsiteShortCuts | backend/agents/website_analyzer_agent.py:59-66 | a malformed URL is refused exactly when invalid, and a fresh cached result is returned as it is |
| Orchestrator.ErrorMarkerScoresZero | backend/agents/website_analyzer_agent.py:82-85 | with the PageSpeed error marker all four stored scores are 0 |
| Orchestrator.FreshResultServedForADay | backend/agents/website_analyzer_agent.py:1070-1076 | a result made now answers every run for the same URL for the next 86400 seconds and no longer |
| Orchestrator.AssembleStamped | backend/agents/website_analyzer_agent.py:88-92 | an assembled result carries the URL and the time of the run |
| Orchestrator.AnalyzeWebsite | backend/agents/website_analyzer_agent.py:53-116 | `analyze_website`; stated by `AnalyzeWebsiteShortCuts`, `AnalyzeWebsiteFresh` and `AssembleCorrect` |
| Orchestrator.IsValidUrl | backend/agents/website_analyzer_agent.py:1040-1046 | a URL with a scheme and a network location that parses; used by `AnalyzeWebsiteShortCuts` |
| Orchestrator.IsCacheValid | backend/agents/website_analyzer_agent.py:1070-1076 | a result younger than a day; stated by `FreshResultServedForADay` |
| Orchestrator.Assemble | backend/agents/website_analyzer_agent.py:79-106 | the result assembled after the probes: it crashes when the recommendation step or a normaliser raises, otherwise it carries the url, timestamp, scores, four probe results, recommendations and `raw_data`; stated by `AssembleCorrect` |

## Left out

- Network I/O (`requests`, `aiohttp`) is not modelled: each probe starts from what its requests returned, and a request that raised is a `None` page or an `Unreachable` fetch.
- HTML and XML parsing (BeautifulSoup) is not modelled: the probes take what the parser found (title text, description, headings, image alt attributes, link targets, paragraphs, `lastmod` texts) as input.
- The Flesch reading-ease and grade formulas (textstat) are library code: their values are inputs of the content probe.
- The language-model exchange (prompt text, the API call, the code-fence regex, `json.loads`) is not modelled: its outcome is the `ModelReply` input, a failure or a decoded JSON answer. The overall score given in the prompt is modelled (`Scores.OverallScore`).
- `asyncio.gather` and the concurrency of the four probes are not modelled; the probes' results are inputs of `Orchestrator.AnalyzeWebsite`.
- Logging is left out; it has no effect on results.
- Environment variables become the booleans `hasKey` and `hasApiKey`.
- `datetime.now()` becomes a `now` parameter in whole seconds; `timedelta(hours=24)` is 86400 seconds.
- The cache lookup always returns nothing in the source and the store is a no-op; the lookup is the `cached` parameter and the store is left out.
- `urlparse` and `urljoin` are library code: they are the `parse` and `join` parameters.
- Floating-point numbers are modelled as exact reals; rounding error in `k / n * weight` and in averages is not modelled.
- `str.lower` is modelled for the ASCII letters only.
- Python's sort algorithm (Timsort) is modelled by a stable insertion sort with the same results.
- How numbers and JSON values are rendered inside recommendation descriptions is not modelled: a description is a list of pieces (text, an integer, a JSON value).
- PyValues.Percent: a score that is a string always raises in the model. Python repeats the string 100 times, and `int` then accepts it when it is made of digits, with single underscores allowed between digits. For example, `"1"` gives a 100-digit integer and `"0"` gives 0, so a run can complete: an SEO score of `"1"` without a model key gives an SEO score of 111…1, and nothing else reads that value. Python 3.11 and later also refuse a result with more than 4300 digits. The model does not capture any of these successes, so for such a score `Scores.NormaliseScores`, `Advisor.Recommend` and `Orchestrator.AnalyzeWebsite` raise where Python returns a result.
- The technical probe's response time, content length, `Server` and `X-Powered-By` headers are copied from the input without further properties.
- Repeated HTTP response headers are not merged: `requests` joins them into one value, while `TechnicalProbe.HeaderValue` reads the first header with the name.
- The heuristic scorers are modelled although `analyze_website` never calls them.
- Dedup.Dedup: states only the bound of three; what it keeps is stated by `Dedup.DedupKeepsFirsts` under the condition that every title key is defined.
- BasicEngine.Emitted: states only the bound; its contents are stated by `BasicEngine.EmittedFromAreas` and `BasicEngine.EmittedLowestFirst`.
