/** The resource finder (agent/resource_finder.py): five web queries per
    concept, a chain of filters on every hit, a heuristic score, and a stable
    ranking by that score. The search engine is the function `search`, from a
    query to what the engine returned for it. */
module ResourceFinder {

  import opened Wrappers
  import opened Strings
  import opened Collections
  import opened TaskAnalyzer

  datatype LearningResource = LearningResource(title: string, url: string, description: string, source: string)

  /** One hit of the engine; a missing field is `None`. */
  datatype RawHit = RawHit(href: Option<string>, title: Option<string>, body: Option<string>)

  /** What one query gave: an exception, or the list of hits. */
  datatype QueryOutcome = Failed | Hits(hits: seq<RawHit>)

  /** A resource together with the score it was accepted with. */
  datatype Scored = Scored(score: int, resource: LearningResource)

  // ---------------------------------------------------------------------
  // Marker lists
  // ---------------------------------------------------------------------

  const RelevanceStopWords: seq<string> :=
    ["the", "a", "an", "and", "or", "for", "with", "development", "basics", "fundamentals", "&", "and", "environment"]

  const ScoreStopWords: seq<string> := ["the", "a", "an", "and", "or", "for", "with", "&"]

  const HighValueDomains: seq<string> := [
    "docs.", "documentation", "tutorialspoint.com", "w3schools.com", "freecodecamp.org", "codecademy.com",
    "coursera.org", "udemy.com", "edx.org", "khanacademy.org", "pluralsight.com", "realpython.com",
    "javascript.info", "react.dev", "djangoproject.com", "python.org", "developer.mozilla.org", "web.dev",
    "geeksforgeeks.org", "mdn", "learn.microsoft.com", "tensorflow.org", "keras.io", "pytorch.org",
    "scikit-learn.org", "numpy.org", "matplotlib.org", "pandas.pydata.org", "tutorial", "guide", "getting-started"
  ]

  const MediumValueDomains: seq<string> :=
    ["github.com", "medium.com", "dev.to", "towardsdatascience.com", "css-tricks.com", "smashingmagazine.com"]

  const ScoreTitleKeywords: seq<string> := [
    "tutorial", "learn", "course", "documentation", "guide", "getting started", "introduction", "basics",
    "fundamentals", "how to", "example", "reference", "docs"
  ]

  const LowQualityTitle: seq<string> :=
    ["question", "answer", "error", "problem", "issue", "bug", "why does", "how do i", "what is the difference"]

  const NonEnglishDomains: seq<string> := [
    "zhihu.com", "baidu.com", "zhidao.baidu.com", "douban.com", "weibo.com", "qq.com", "163.com", "sina.com.cn",
    "sohu.com", "yandex.ru", "mail.ru", "rambler.ru", "naver.com", "daum.net", ".jp/", ".kr/", ".cn/", ".ru/"
  ]

  const ExcludedDomains: seq<string> := [
    "stackoverflow.com", "facebook.com", "twitter.com", "instagram.com", "linkedin.com", "pinterest.com",
    "reddit.com", "youtube.com/watch", "learn.lboro.ac.uk", "blackboard.com", "canvas.net", "moodle.org",
    "brightspace.com", "support.google.com", "support.microsoft.com", "help."
  ]

  const EducationalDomains: seq<string> := [
    "github.com", "stackoverflow.com", "docs.", "tutorial", "learn", "course", "documentation", "guide",
    "w3schools", "mdn", "freecodecamp", "coursera", "udemy", "edx", "khanacademy", "medium.com", "dev.to",
    "towardsdatascience.com", "geeksforgeeks.org", "tutorialspoint.com", "codecademy.com", "pluralsight.com",
    "realpython.com", "javascript.info", "react.dev", "djangoproject.com", "python.org", "nodejs.org",
    "developer.mozilla.org", "web.dev", "css-tricks.com", "smashingmagazine.com"
  ]

  const LmsIndicators: seq<string> := [
    "course/index.php", "/lms/", "/blackboard/", "/moodle/", "/canvas/", "/brightspace/", "student portal",
    "enrollment", "registration", "login", "sign in", "my courses"
  ]

  const ValidityTitleKeywords: seq<string> := [
    "tutorial", "learn", "course", "documentation", "guide", "getting started", "introduction", "basics",
    "fundamentals", "how to", "example", "reference", "api", "docs", "training", "getting-started", "beginner",
    "overview", "crash course", "handbook", "manual", "book", "library", "framework"
  ]

  const EnglishTlds: seq<string> := [".com", ".org", ".net", ".io", ".dev", ".edu", ".co.uk"]

  // ---------------------------------------------------------------------
  // Words of a concept name
  // ---------------------------------------------------------------------

  /** `[w for w in words if w not in stop]`. */
  function Without(words: seq<string>, stop: seq<string>): (r: seq<string>)
    ensures |r| <= |words|
    ensures forall k :: 0 <= k < |r| ==> r[k] !in stop && r[k] in words
  {
    if words == [] then []
    else
      var rest := Without(words[..|words| - 1], stop);
      var w := words[|words| - 1];
      if w in stop then rest else rest + [w]
  }

  /** Exactly the words outside `stop` are kept. */
  lemma {:induction false} WithoutMembers(words: seq<string>, stop: seq<string>)
    ensures forall w :: w in Without(words, stop) <==> w in words && w !in stop
    decreases |words|
  {
    if words != [] {
      var init := words[..|words| - 1];
      WithoutMembers(init, stop);
      assert words == init + [words[|words| - 1]];
    }
  }

  /** The filter keeps the order of the words: it distributes over `+`. */
  lemma {:induction false} WithoutConcat(a: seq<string>, b: seq<string>, stop: seq<string>)
    ensures Without(a + b, stop) == Without(a, stop) + Without(b, stop)
    decreases |b|
  {
    if b == [] {
      assert a + b == a;
    } else {
      var init := b[..|b| - 1];
      assert (a + b)[..|a + b| - 1] == a + init;
      WithoutConcat(a, init, stop);
    }
  }

  /** `[w for w in words if len(w) > n]`. */
  function LongerThan(words: seq<string>, n: nat): (r: seq<string>)
    ensures |r| <= |words|
    ensures forall k :: 0 <= k < |r| ==> |r[k]| > n && r[k] in words
  {
    if words == [] then []
    else
      var rest := LongerThan(words[..|words| - 1], n);
      var w := words[|words| - 1];
      if |w| > n then rest + [w] else rest
  }

  /** Exactly the words longer than `n` are kept. */
  lemma {:induction false} LongerThanMembers(words: seq<string>, n: nat)
    ensures forall w :: w in LongerThan(words, n) <==> w in words && |w| > n
    decreases |words|
  {
    if words != [] {
      var init := words[..|words| - 1];
      LongerThanMembers(init, n);
      assert words == init + [words[|words| - 1]];
    }
  }

  /** The filter keeps the order of the words: it distributes over `+`. */
  lemma {:induction false} LongerThanConcat(a: seq<string>, b: seq<string>, n: nat)
    ensures LongerThan(a + b, n) == LongerThan(a, n) + LongerThan(b, n)
    decreases |b|
  {
    if b == [] {
      assert a + b == a;
    } else {
      var init := b[..|b| - 1];
      assert (a + b)[..|a + b| - 1] == a + init;
      LongerThanConcat(a, init, n);
    }
  }

  /** The words of the first parenthesised group, with `/` and `,` read as
      separators, keeping those longer than 2 characters. */
  function ParenWords(conceptLower: string): (r: seq<string>)
    ensures forall k :: 0 <= k < |r| ==> |r[k]| > 2
  {
    match FirstParenGroup(conceptLower)
    case Some(g) => LongerThan(SplitWs(ReplaceChar(ReplaceChar(g, '/', ' '), ',', ' ')), 2)
    case None => []
  }

  /** The words of the name outside parentheses, without the given stop
      words. */
  function CoreWords(conceptLower: string, stop: seq<string>): seq<string> {
    Without(SplitWs(RemoveParens(conceptLower)), stop)
  }

  /** The keywords of the relevance test: the core words, then the
      parenthesised ones. */
  function RelevanceKeywords(conceptLower: string): seq<string> {
    CoreWords(conceptLower, RelevanceStopWords) + ParenWords(conceptLower)
  }

  /** The relevance test on lower-cased texts: one of the first five keywords,
      or the first keyword, occurs in the title or the URL; without keywords,
      the first 20 characters of the name must. */
  function IsRelevant(conceptLower: string, titleLower: string, urlLower: string): bool {
    var words := RelevanceKeywords(conceptLower);
    if words != [] then
      || ContainsAny(titleLower, Take(words, 5))
      || ContainsAny(urlLower, Take(words, 5))
      || Contains(titleLower, words[0])
      || Contains(urlLower, words[0])
    else
      Contains(titleLower, Prefix(conceptLower, 20)) || Contains(urlLower, Prefix(conceptLower, 20))
  }

  /** The separate test of the first keyword adds nothing: it is always among
      the first five. */
  lemma RelevanceFirstFive(conceptLower: string, titleLower: string, urlLower: string)
    requires RelevanceKeywords(conceptLower) != []
    ensures IsRelevant(conceptLower, titleLower, urlLower) <==>
              ContainsAnyIn2(titleLower, urlLower, Take(RelevanceKeywords(conceptLower), 5))
  {
    var words := RelevanceKeywords(conceptLower);
    assert Take(words, 5)[0] == words[0];
  }

  // ---------------------------------------------------------------------
  // _score_learning_resource
  // ---------------------------------------------------------------------

  /** The score parts that depend on the concept name: 2 when one of the
      first three core words is in the title, and 2 more when one of the
      first two parenthesised words is; both need a core word. */
  function ConceptBonus(titleLower: string, conceptLower: string): (r: int)
    ensures r == 0 || r == 2 || r == 4
    ensures r > 0 ==> CoreWords(conceptLower, ScoreStopWords) != []
  {
    var words := CoreWords(conceptLower, ScoreStopWords);
    if words == [] then 0
    else
      (if ContainsAny(titleLower, Take(words, 3)) then 2 else 0) +
      (if ContainsAny(titleLower, Take(ParenWords(conceptLower), 2)) then 2 else 0)
  }

  /** The educational-value score: 1, plus 10 for a high-value marker in the
      URL or title, 5 for a medium-value one, 3 for a title keyword, the
      concept bonus, minus 2 for a low-quality title; never below 0. */
  function Score(url: string, title: string, concept: string): (r: int)
    ensures 0 <= r <= 23
    ensures !ContainsAny(Lower(title), LowQualityTitle) ==> r >= 1
    ensures ContainsAnyIn2(Lower(url), Lower(title), HighValueDomains) ==> r >= 9
    ensures r == 0 <==>
              && ContainsAny(Lower(title), LowQualityTitle)
              && !ContainsAnyIn2(Lower(url), Lower(title), HighValueDomains)
              && !ContainsAnyIn2(Lower(url), Lower(title), MediumValueDomains)
              && !ContainsAny(Lower(title), ScoreTitleKeywords)
              && ConceptBonus(Lower(title), Lower(concept)) == 0
  {
    var urlLower := Lower(url);
    var titleLower := Lower(title);
    var high := if ContainsAnyIn2(urlLower, titleLower, HighValueDomains) then 10 else 0;
    var medium := if ContainsAnyIn2(urlLower, titleLower, MediumValueDomains) then 5 else 0;
    var keyword := if ContainsAny(titleLower, ScoreTitleKeywords) then 3 else 0;
    var penalty := if ContainsAny(titleLower, LowQualityTitle) then 2 else 0;
    var raw := 1 + high + medium + keyword + ConceptBonus(titleLower, Lower(concept)) - penalty;
    if raw < 0 then 0 else raw
  }

  // ---------------------------------------------------------------------
  // _is_valid_learning_resource
  // ---------------------------------------------------------------------

  /** The number of characters above code point 127. */
  function NonAsciiCount(s: string): (n: nat)
    ensures n <= |s|
  {
    if s == [] then 0 else (if s[0] as int > 127 then 1 else 0) + NonAsciiCount(s[1..])
  }

  /** No count for a pure-ASCII title, the full length for a title with no
      ASCII character at all. */
  lemma {:induction false} NonAsciiCountRange(s: string)
    ensures NonAsciiCount(s) == 0 <==> forall k :: 0 <= k < |s| ==> s[k] as int <= 127
    ensures NonAsciiCount(s) == |s| <==> forall k :: 0 <= k < |s| ==> s[k] as int > 127
    decreases |s|
  {
    if s != [] {
      var t := s[1..];
      NonAsciiCountRange(t);
      assert forall k :: 0 <= k < |t| ==> t[k] == s[k + 1];
    }
  }

  /** The count adds up over the pieces of a title. */
  lemma {:induction false} NonAsciiCountConcat(a: string, b: string)
    ensures NonAsciiCount(a + b) == NonAsciiCount(a) + NonAsciiCount(b)
    decreases |a|
  {
    if a == [] {
      assert a + b == b;
    } else {
      assert (a + b)[1..] == a[1..] + b;
      NonAsciiCountConcat(a[1..], b);
    }
  }

  /** More than 30% of the title is non-ASCII; the ratio is compared in
      integers. */
  predicate MostlyForeign(title: string) {
    |title| > 0 && 10 * NonAsciiCount(title) > 3 * |title|
  }

  /** The quality gate, in the source's order of checks: a non-English or
      excluded domain rejects, a mostly non-ASCII title rejects, an
      educational marker accepts, an LMS marker rejects, a title with neither
      a keyword nor the concept rejects, and what is left needs an English
      top-level domain. */
  function IsValid(url: string, title: string, concept: string): (r: bool)
    ensures ContainsAny(Lower(url), NonEnglishDomains) ==> !r
    ensures ContainsAny(Lower(url), ExcludedDomains) ==> !r
    ensures MostlyForeign(title) ==> !r
    ensures r ==> ContainsAnyIn2(Lower(url), Lower(title), EducationalDomains) || ContainsAny(Lower(url), EnglishTlds)
    ensures r && !ContainsAnyIn2(Lower(url), Lower(title), EducationalDomains) ==>
              && !ContainsAnyIn2(UrlPath(Lower(url)), Lower(title), LmsIndicators)
              && (ContainsAny(Lower(title), ValidityTitleKeywords) || ContainsAny(Lower(title), Take(CoreWords(Lower(concept), ScoreStopWords), 3)))
  {
    var urlLower := Lower(url);
    var titleLower := Lower(title);
    if ContainsAny(urlLower, NonEnglishDomains) then false
    else if ContainsAny(urlLower, ExcludedDomains) then false
    else if MostlyForeign(title) then false
    else if ContainsAnyIn2(urlLower, titleLower, EducationalDomains) then true
    else if ContainsAnyIn2(UrlPath(urlLower), titleLower, LmsIndicators) then false
    else
      var hasKeyword := ContainsAny(titleLower, ValidityTitleKeywords);
      var words := CoreWords(Lower(concept), ScoreStopWords);
      var hasConcept := if words != [] then ContainsAny(titleLower, Take(words, 3)) else false;
      if !hasKeyword && !hasConcept then false
      else ContainsAny(urlLower, EnglishTlds)
  }

  /** A Stack Overflow URL never passes, although the educational list
      names it. */
  lemma StackOverflowNeverValid(url: string, title: string, concept: string)
    requires Contains(Lower(url), "stackoverflow.com")
    ensures !IsValid(url, title, concept)
  {
    assert ExcludedDomains[0] == "stackoverflow.com";
  }

  /** An educational marker accepts at once: the LMS, keyword and
      top-level-domain checks are then skipped. */
  lemma EducationalAccepted(url: string, title: string, concept: string)
    requires !ContainsAny(Lower(url), NonEnglishDomains) && !ContainsAny(Lower(url), ExcludedDomains)
    requires !MostlyForeign(title)
    requires ContainsAnyIn2(Lower(url), Lower(title), EducationalDomains)
    ensures IsValid(url, title, concept)
  {
  }

  // ---------------------------------------------------------------------
  // find_resources_for_concept
  // ---------------------------------------------------------------------

  /** The five queries, in the order they are sent. */
  function SearchQueries(concept: string): (r: seq<string>)
    ensures |r| == 5
  {
    [concept + " tutorial", "learn " + concept, concept + " documentation", concept + " course",
     concept + " getting started guide"]
  }

  lemma QueriesMentionConcept(concept: string)
    ensures forall i :: 0 <= i < |SearchQueries(concept)| ==> Contains(SearchQueries(concept)[i], concept)
  {
    var q := SearchQueries(concept);
    ContainsMiddle([], concept, " tutorial");
    ContainsMiddle("learn ", concept, []);
    ContainsMiddle([], concept, " documentation");
    ContainsMiddle([], concept, " course");
    ContainsMiddle([], concept, " getting started guide");
    assert [] + concept + " tutorial" == q[0];
    assert "learn " + concept + [] == q[1];
    assert [] + concept + " documentation" == q[2];
    assert [] + concept + " course" == q[3];
    assert [] + concept + " getting started guide" == q[4];
  }

  /** The stored description: the body, cut to 200 characters plus "..."
      when longer. */
  function Describe(body: string): (r: string)
    ensures |r| <= 203
    ensures |body| <= 200 ==> r == body
    ensures |body| > 200 ==> r == body[..200] + "..."
  {
    if |body| > 200 then body[..200] + "..." else body
  }

  function Urls(accepted: seq<Scored>): (r: seq<string>)
    ensures |r| == |accepted|
    ensures forall i :: 0 <= i < |r| ==> r[i] == accepted[i].resource.url
  {
    seq(|accepted|, i requires 0 <= i < |accepted| => accepted[i].resource.url)
  }

  function Resources(accepted: seq<Scored>): (r: seq<LearningResource>)
    ensures |r| == |accepted|
    ensures forall i :: 0 <= i < |r| ==> r[i] == accepted[i].resource
  {
    seq(|accepted|, i requires 0 <= i < |accepted| => accepted[i].resource)
  }

  /** What every accepted resource is: a hit with a URL and a title, not on
      Stack Overflow, relevant to the concept, valid, with the source's
      description cut and source "web". */
  ghost predicate Acceptable(concept: string, r: LearningResource) {
    && r.url != [] && r.title != []
    && !Contains(Lower(r.url), "stackoverflow.com")
    && IsRelevant(Lower(concept), Lower(r.title), Lower(r.url))
    && IsValid(r.url, r.title, concept)
    && |r.description| <= 203
    && r.source == "web"
  }

  /** An accepted entry: an acceptable resource with its own score. */
  ghost predicate AcceptedEntry(concept: string, s: Scored) {
    Acceptable(concept, s.resource) && s.score == Score(s.resource.url, s.resource.title, concept)
  }

  function UrlOf(s: Scored): string {
    s.resource.url
  }

  /** An accepted list: accepted entries, and no URL twice. */
  ghost predicate AcceptedOk(concept: string, accepted: seq<Scored>) {
    && (forall i :: 0 <= i < |accepted| ==> AcceptedEntry(concept, accepted[i]))
    && DistinctBy(accepted, UrlOf)
  }

  /** The filter chain applied to one hit. */
  function Admit(concept: string, accepted: seq<Scored>, hit: RawHit): seq<Scored> {
    var url := hit.href.GetOr("");
    var title := hit.title.GetOr("");
    var body := hit.body.GetOr("");
    if url in Urls(accepted) || url == [] || title == [] then accepted
    else if Contains(Lower(url), "stackoverflow.com") then accepted
    else if !IsRelevant(Lower(concept), Lower(title), Lower(url)) then accepted
    else
      var score := Score(url, title, concept);
      if IsValid(url, title, concept) && score >= 0 then
        accepted + [Scored(score, LearningResource(title, url, Describe(body), "web"))]
      else accepted
  }

  /** The hits of one query, in order. */
  function AdmitAll(concept: string, accepted: seq<Scored>, hits: seq<RawHit>): seq<Scored> {
    if hits == [] then accepted else Admit(concept, AdmitAll(concept, accepted, hits[..|hits| - 1]), hits[|hits| - 1])
  }

  /** All queries, in order; a failed query adds nothing. */
  function Gather(concept: string, outcomes: seq<QueryOutcome>): seq<Scored> {
    if outcomes == [] then []
    else
      var accepted := Gather(concept, outcomes[..|outcomes| - 1]);
      match outcomes[|outcomes| - 1]
      case Failed => accepted
      case Hits(hits) => AdmitAll(concept, accepted, hits)
  }

  function Outcomes(concept: string, search: string -> QueryOutcome): (r: seq<QueryOutcome>)
    ensures |r| == 5
  {
    var queries := SearchQueries(concept);
    seq(5, i requires 0 <= i < 5 => search(queries[i]))
  }

  /** The reverse-sorted order by score is the stable ascending order of the
      negated score. */
  function NegScore(s: Scored): int {
    -s.score
  }

  /** The best `maxResults` resources, best first; equal scores keep the
      order in which they were accepted. */
  function Ranked(accepted: seq<Scored>, maxResults: int): seq<Scored> {
    Take(SortBy(accepted, NegScore), maxResults)
  }

  lemma AdmitOk(concept: string, accepted: seq<Scored>, hit: RawHit)
    requires AcceptedOk(concept, accepted)
    ensures var r := Admit(concept, accepted, hit);
            AcceptedOk(concept, r) && |accepted| <= |r| <= |accepted| + 1 && r[..|accepted|] == accepted
  {
    var r := Admit(concept, accepted, hit);
    if r != accepted {
      var x := r[|accepted|];
      assert r == accepted + [x];
      assert x.resource.url !in Urls(accepted);
      assert forall i :: 0 <= i < |accepted| ==> UrlOf(accepted[i]) != UrlOf(x);
    }
  }

  lemma {:induction false} AdmitAllOk(concept: string, accepted: seq<Scored>, hits: seq<RawHit>)
    requires AcceptedOk(concept, accepted)
    ensures var r := AdmitAll(concept, accepted, hits);
            AcceptedOk(concept, r) && |accepted| <= |r| && r[..|accepted|] == accepted
  {
    if hits != [] {
      var before := AdmitAll(concept, accepted, hits[..|hits| - 1]);
      AdmitAllOk(concept, accepted, hits[..|hits| - 1]);
      AdmitOk(concept, before, hits[|hits| - 1]);
    }
  }

  /** Whatever the engine returns, the gathered list is acceptable, and the
      resources of earlier queries stay in front. */
  lemma {:induction false} GatherOk(concept: string, outcomes: seq<QueryOutcome>)
    ensures AcceptedOk(concept, Gather(concept, outcomes))
    ensures forall n :: 0 <= n <= |outcomes| ==>
              var early := Gather(concept, outcomes[..n]);
              |early| <= |Gather(concept, outcomes)| && Gather(concept, outcomes)[..|early|] == early
  {
    if outcomes != [] {
      var init := outcomes[..|outcomes| - 1];
      GatherOk(concept, init);
      var accepted := Gather(concept, init);
      if outcomes[|outcomes| - 1].Hits? {
        AdmitAllOk(concept, accepted, outcomes[|outcomes| - 1].hits);
      }
      forall n | 0 <= n <= |outcomes|
        ensures var early := Gather(concept, outcomes[..n]);
                |early| <= |Gather(concept, outcomes)| && Gather(concept, outcomes)[..|early|] == early
      {
        if n < |outcomes| {
          assert init[..n] == outcomes[..n];
        } else {
          assert outcomes[..n] == outcomes;
        }
      }
    }
  }

  /** When every query fails nothing is found. */
  lemma {:induction false} AllFailed(concept: string, outcomes: seq<QueryOutcome>)
    requires forall i :: 0 <= i < |outcomes| ==> outcomes[i].Failed?
    ensures Gather(concept, outcomes) == []
  {
    if outcomes != [] {
      AllFailed(concept, outcomes[..|outcomes| - 1]);
    }
  }

  /** The ranking keeps accepted entries with distinct URLs. */
  lemma RankedAccepted(concept: string, accepted: seq<Scored>, maxResults: int)
    requires AcceptedOk(concept, accepted)
    ensures AcceptedOk(concept, Ranked(accepted, maxResults))
  {
    var sorted := SortBy(accepted, NegScore);
    SortByEach(accepted, NegScore, s => AcceptedEntry(concept, s));
    SortByDistinct(accepted, NegScore, UrlOf);
    var r := Ranked(accepted, maxResults);
    assert forall i :: 0 <= i < |r| ==> r[i] == sorted[i];
  }

  /** The ranking keeps at most `maxResults` entries, best score first, and
      nothing it leaves out scores higher than anything it keeps; when all
      fit, it only reorders. */
  lemma RankedOrder(accepted: seq<Scored>, maxResults: int)
    ensures var r := Ranked(accepted, maxResults);
            && |r| <= |accepted|
            && (maxResults >= 0 ==> |r| <= maxResults)
            && (forall i, j :: 0 <= i < j < |r| ==> r[i].score >= r[j].score)
            && (forall i, j :: 0 <= i < |r| && 0 <= j < |accepted| && accepted[j] !in r ==> r[i].score >= accepted[j].score)
            && (maxResults >= |accepted| ==> multiset(r) == multiset(accepted))
  {
    var sorted := SortBy(accepted, NegScore);
    var r := Ranked(accepted, maxResults);
    SortBySorted(accepted, NegScore);
    SortByElements(accepted, NegScore);
    assert forall i :: 0 <= i < |r| ==> r[i] == sorted[i];
    forall i, j | 0 <= i < |r| && 0 <= j < |accepted| && accepted[j] !in r
      ensures r[i].score >= accepted[j].score
    {
      assert accepted[j] in sorted;
      var k :| 0 <= k < |sorted| && sorted[k] == accepted[j];
      assert k >= |r|;
    }
    if maxResults >= |accepted| {
      SortByPermutation(accepted, NegScore);
      assert r == sorted;
    }
  }

  /** Within one score, the ranking keeps a prefix of the entries accepted
      with that score, in the order of acceptance, and all of them when every
      entry fits. */
  lemma RankedStable(accepted: seq<Scored>, maxResults: int, score: int)
    ensures var w, t := WithKey(accepted, NegScore, -score), WithKey(Ranked(accepted, maxResults), NegScore, -score);
            |t| <= |w| && w[..|t|] == t
    ensures maxResults >= |accepted| ==>
              WithKey(Ranked(accepted, maxResults), NegScore, -score) == WithKey(accepted, NegScore, -score)
  {
    TakeSortByStable(accepted, NegScore, maxResults, -score);
    if maxResults >= |accepted| {
      SortByStable(accepted, NegScore, -score);
      assert Ranked(accepted, maxResults) == SortBy(accepted, NegScore);
    }
  }

  /** One hit through the filter chain; `seenUrls` is the set of accepted
      URLs. */
  method AdmitHit(conceptName: string, scored: seq<Scored>, seenUrls: set<string>, hit: RawHit)
    returns (scored': seq<Scored>, seenUrls': set<string>)
    requires forall u :: u in seenUrls <==> u in Urls(scored)
    ensures scored' == Admit(conceptName, scored, hit)
    ensures forall u :: u in seenUrls' <==> u in Urls(scored')
  {
    scored', seenUrls' := scored, seenUrls;
    var url := hit.href.GetOr("");
    var title := hit.title.GetOr("");
    var body := hit.body.GetOr("");
    if url in seenUrls || url == [] || title == [] {
      return;
    }
    if Contains(Lower(url), "stackoverflow.com") {
      return;
    }
    var conceptLower := Lower(conceptName);
    var titleLower := Lower(title);
    var urlLower := Lower(url);
    if !IsRelevant(conceptLower, titleLower, urlLower) {
      return;
    }
    var resourceScore := Score(url, title, conceptName);
    if IsValid(url, title, conceptName) {
      if resourceScore >= 0 {
        var resource := LearningResource(title, url, Describe(body), "web");
        scored' := scored + [Scored(resourceScore, resource)];
        seenUrls' := seenUrls + {url};
        assert Urls(scored') == Urls(scored) + [url];
      }
    }
  }

  /** The hits of one successful query, in order. */
  method AdmitHits(conceptName: string, scored: seq<Scored>, seenUrls: set<string>, hits: seq<RawHit>)
    returns (scored': seq<Scored>, seenUrls': set<string>)
    requires forall u :: u in seenUrls <==> u in Urls(scored)
    ensures scored' == AdmitAll(conceptName, scored, hits)
    ensures forall u :: u in seenUrls' <==> u in Urls(scored')
  {
    scored', seenUrls' := scored, seenUrls;
    for h := 0 to |hits|
      invariant scored' == AdmitAll(conceptName, scored, hits[..h])
      invariant forall u :: u in seenUrls' <==> u in Urls(scored')
    {
      assert hits[..h + 1][..h] == hits[..h];
      scored', seenUrls' := AdmitHit(conceptName, scored', seenUrls', hits[h]);
    }
    assert hits[..|hits|] == hits;
  }

  /** Runs the five queries of `conceptName`, keeps the acceptable hits and
      returns the `maxResults` best, best first. */
  method FindResourcesForConcept(conceptName: string, maxResults: int, search: string -> QueryOutcome)
    returns (resources: seq<LearningResource>)
    ensures resources == Resources(Ranked(Gather(conceptName, Outcomes(conceptName, search)), maxResults))
    ensures maxResults >= 0 ==> |resources| <= maxResults
    ensures forall i :: 0 <= i < |resources| ==> Acceptable(conceptName, resources[i])
    ensures forall i, j :: 0 <= i < j < |resources| ==> resources[i].url != resources[j].url
    ensures forall i, j :: 0 <= i < j < |resources| ==>
              Score(resources[i].url, resources[i].title, conceptName) >= Score(resources[j].url, resources[j].title, conceptName)
    ensures (forall q :: q in SearchQueries(conceptName) ==> search(q).Failed?) ==> resources == []
    ensures var accepted := Gather(conceptName, Outcomes(conceptName, search));
            forall k :: var w, t := WithKey(accepted, NegScore, k), WithKey(Ranked(accepted, maxResults), NegScore, k);
              |t| <= |w| && w[..|t|] == t
  {
    var scored: seq<Scored> := [];
    var seenUrls: set<string> := {};
    var queries := SearchQueries(conceptName);
    ghost var outcomes := Outcomes(conceptName, search);

    for q := 0 to |queries|
      invariant scored == Gather(conceptName, outcomes[..q])
      invariant forall u :: u in seenUrls <==> u in Urls(scored)
    {
      assert outcomes[..q + 1][..q] == outcomes[..q];
      var outcome := search(queries[q]);
      if outcome.Hits? {
        scored, seenUrls := AdmitHits(conceptName, scored, seenUrls, outcome.hits);
      }
    }
    assert outcomes[..|queries|] == outcomes;

    var ranked := Take(SortBy(scored, NegScore), maxResults);
    resources := Resources(ranked);

    GatherOk(conceptName, outcomes);
    RankedResources(conceptName, scored, maxResults);
    RankedPrefixes(scored, maxResults);
    if forall q :: q in SearchQueries(conceptName) ==> search(q).Failed? {
      assert forall i :: 0 <= i < |outcomes| ==> outcomes[i] == search(queries[i]);
      AllFailed(conceptName, outcomes);
    }
  }

  /** What the ranking of an accepted list hands back. */
  lemma RankedResources(concept: string, accepted: seq<Scored>, maxResults: int)
    requires AcceptedOk(concept, accepted)
    ensures var rs := Resources(Ranked(accepted, maxResults));
            && (maxResults >= 0 ==> |rs| <= maxResults)
            && (forall i :: 0 <= i < |rs| ==> Acceptable(concept, rs[i]))
            && (forall i, j :: 0 <= i < j < |rs| ==> rs[i].url != rs[j].url)
            && (forall i, j :: 0 <= i < j < |rs| ==>
                  Score(rs[i].url, rs[i].title, concept) >= Score(rs[j].url, rs[j].title, concept))
  {
    RankedAccepted(concept, accepted, maxResults);
    RankedOrder(accepted, maxResults);
  }

  lemma RankedPrefixes(accepted: seq<Scored>, maxResults: int)
    ensures forall k :: var w, t := WithKey(accepted, NegScore, k), WithKey(Ranked(accepted, maxResults), NegScore, k);
              |t| <= |w| && w[..|t|] == t
  {
    forall k ensures var w, t := WithKey(accepted, NegScore, k), WithKey(Ranked(accepted, maxResults), NegScore, k);
                       |t| <= |w| && w[..|t|] == t {
      TakeSortByStable(accepted, NegScore, maxResults, k);
    }
  }

  // ---------------------------------------------------------------------
  // find_resources_for_prerequisites
  // ---------------------------------------------------------------------

  /** The searches for the prerequisite at position `i` of the processed
      list; the engine may answer the same query differently each time. */
  function SearchAt(search: (nat, string) -> QueryOutcome, i: nat): string -> QueryOutcome {
    q => search(i, q)
  }

  /** The prerequisites that are searched: the 10 first by priority. */
  function Searched(prerequisites: seq<Prerequisite>): (r: seq<Prerequisite>)
    ensures |r| <= 10
  {
    Take(SortBy(prerequisites, Priority), 10)
  }

  /** The searched prerequisites are the (at most) 10 of smallest priority
      number, in priority order, ties in their original order; with 10 or
      fewer, every prerequisite is searched. */
  lemma SearchedSelects(prerequisites: seq<Prerequisite>)
    ensures var r := Searched(prerequisites);
            && |r| == (if |prerequisites| <= 10 then |prerequisites| else 10)
            && (forall i, j :: 0 <= i < j < |r| ==> r[i].priority <= r[j].priority)
            && (forall x :: x in r ==> x in prerequisites)
            && (forall i, j :: 0 <= i < |r| && 0 <= j < |prerequisites| && prerequisites[j] !in r ==>
                  r[i].priority <= prerequisites[j].priority)
            && (|prerequisites| <= 10 ==> multiset(r) == multiset(prerequisites))
    ensures forall p :: var w, t := WithKey(prerequisites, Priority, p), WithKey(Searched(prerequisites), Priority, p);
              |t| <= |w| && w[..|t|] == t
  {
    TakeSortBySelects(prerequisites, Priority, 10);
    forall p ensures var w, t := WithKey(prerequisites, Priority, p), WithKey(Searched(prerequisites), Priority, p);
                       |t| <= |w| && w[..|t|] == t {
      TakeSortByStable(prerequisites, Priority, 10, p);
    }
  }

  /** The name and the result list of every search, in order. */
  function BatchPairs(searched: seq<Prerequisite>, maxResults: int, search: (nat, string) -> QueryOutcome): (r: seq<(string, seq<LearningResource>)>)
    ensures |r| == |searched|
  {
    seq(|searched|, i requires 0 <= i < |searched| =>
      (searched[i].name, Resources(Ranked(Gather(searched[i].name, Outcomes(searched[i].name, SearchAt(search, i))), maxResults))))
  }

  method FindResourcesForPrerequisites(prerequisites: seq<Prerequisite>, maxResults: int, search: (nat, string) -> QueryOutcome)
    returns (byConcept: Dict<string, seq<LearningResource>>)
    ensures byConcept == PutAll(Dict([]), BatchPairs(Searched(prerequisites), maxResults, search))
  {
    byConcept := Dict([]);
    var sortedPrereqs := Take(SortBy(prerequisites, Priority), 10);
    ghost var pairs := BatchPairs(sortedPrereqs, maxResults, search);
    for i := 0 to |sortedPrereqs|
      invariant byConcept == PutAll(Dict([]), pairs[..i])
    {
      var conceptName := sortedPrereqs[i].name;
      var resources := FindResourcesForConcept(conceptName, maxResults, SearchAt(search, i));
      PutAllStep(Dict([]), pairs, i);
      byConcept := byConcept.Put(conceptName, resources);
    }
    assert pairs[..|sortedPrereqs|] == pairs;
  }

  /** The dictionary holds, in first-search order, one entry per distinct
      name among the 10 searched prerequisites, no name twice, and under each
      name the results of its last search. */
  lemma BatchShape(prerequisites: seq<Prerequisite>, maxResults: int, search: (nat, string) -> QueryOutcome)
    ensures var searched := Searched(prerequisites);
            var pairs := BatchPairs(searched, maxResults, search);
            var d := PutAll(Dict([]), pairs);
            && d.Keys() == Dedup(Names(searched))
            && d.Valid()
            && |d.Keys()| <= 10
            && forall i :: 0 <= i < |searched| && (forall j :: i < j < |searched| ==> searched[j].name != searched[i].name) ==>
                 d.Get(searched[i].name) == Some(pairs[i].1)
  {
    var searched := Searched(prerequisites);
    NamedPairs(searched, BatchPairs(searched, maxResults, search));
  }

  lemma NamedPairs<V>(searched: seq<Prerequisite>, pairs: seq<(string, V)>)
    requires |pairs| == |searched|
    requires forall i :: 0 <= i < |pairs| ==> pairs[i].0 == searched[i].name
    ensures var d := PutAll(Dict([]), pairs);
            && d.Keys() == Dedup(Names(searched))
            && d.Valid()
            && |d.Keys()| <= |searched|
            && forall i :: 0 <= i < |searched| && (forall j :: i < j < |searched| ==> searched[j].name != searched[i].name) ==>
                 d.Get(searched[i].name) == Some(pairs[i].1)
  {
    PutAllFromEmpty(pairs);
    assert FirstComponents(pairs) == Names(searched);
  }
}
