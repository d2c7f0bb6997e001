/** The keyword router of router.ts: a first-match classifier that sends a
    query to the code, research or reasoning agent, or falls back to the
    general agent. */
module Router {
  import opened Text
  import opened Agents

  /** The three shapes the router's regular expressions take.
      `AnyOf(ws)` is an alternation of literal words found anywhere;
      `EndsWithOneOf(ss)` is `\.(…)$` without the multiline flag, so it is
      anchored at the very end of the text; `ThenOnSameLine(f, ls)` is
      `f.*(l1|l2|…)`, where `.` matches anything but a line terminator. */
  datatype Pattern =
    | AnyOf(words: seq<string>)
    | EndsWithOneOf(suffixes: seq<string>)
    | ThenOnSameLine(first: string, later: seq<string>)

  // The eighteen patterns of the table, in order.
  const BuildVerbs := AnyOf(["build", "create", "make", "write"])
  const WebWords := AnyOf(["website", "web site", "html", "css", "javascript", "typescript"])
  const ProgramWords := AnyOf(["code", "program", "app", "application"])
  const SourceSuffix := EndsWithOneOf([".html", ".css", ".js", ".ts", ".tsx", ".jsx"])
  const FileThenSource := ThenOnSameLine("file", [".html", ".css", ".js", ".ts"])
  const StackWords := AnyOf(["frontend", "backend", "fullstack"])

  const SearchVerbs := AnyOf(["research", "find", "search"])
  const QuestionOpeners := AnyOf(["what is", "who is", "when did", "where is"])
  const NewsWords := AnyOf(["latest", "news", "recent"])
  const ExplainWords := AnyOf(["explain", "describe", "define"])
  const BackgroundWords := AnyOf(["history", "background", "overview"])
  const DetailWords := AnyOf(["information", "facts", "details"])

  const AnalysisWords := AnyOf(["analyze", "analysis"])
  const CompareWords := AnyOf(["compare", "contrast"])
  const ReasonWords := AnyOf(["explain why", "reason"])
  const PlanWords := AnyOf(["plan", "strategy"])
  const ConsiderWords := AnyOf(["think about", "consider"])
  const ProsConsWords := AnyOf(["advantage", "disadvantage", "pros", "cons"])

  /** The `patterns` table; general's list is empty. */
  function Patterns(key: AgentKey): seq<Pattern>
  {
    match key
    case Code => [BuildVerbs, WebWords, ProgramWords, SourceSuffix, FileThenSource, StackWords]
    case Research => [SearchVerbs, QuestionOpeners, NewsWords, ExplainWords, BackgroundWords, DetailWords]
    case Reasoning => [AnalysisWords, CompareWords, ReasonWords, PlanWords, ConsiderWords, ProsConsWords]
    case General => []
  }

  // ---------------------------------------------------------------------------
  // Matching one pattern
  // ---------------------------------------------------------------------------

  predicate StartsWithAny(s: string, ws: seq<string>)
    decreases |ws|
  {
    ws != [] && (ws[0] <= s || StartsWithAny(s, ws[1..]))
  }

  /** One of `later` starts somewhere in `s` before the first line terminator. */
  predicate LaterOnSameLine(s: string, later: seq<string>)
    decreases |s|
  {
    StartsWithAny(s, later) || (s != [] && !IsLineTerminator(s[0]) && LaterOnSameLine(s[1..], later))
  }

  /** `first` occurs at some position from `i` on and is followed on the same
      line by one of `later`. */
  predicate FollowedFrom(s: string, first: string, later: seq<string>, i: nat)
    decreases |s| + 1 - i
  {
    i + |first| <= |s|
    && ((s[i..i + |first|] == first && LaterOnSameLine(s[i + |first|..], later))
        || FollowedFrom(s, first, later, i + 1))
  }

  /** `pattern.test(s)`. */
  predicate Matches(p: Pattern, s: string)
  {
    match p
    case AnyOf(ws) => ContainsAny(s, ws)
    case EndsWithOneOf(ss) => EndsWithAny(s, ss)
    case ThenOnSameLine(first, later) => FollowedFrom(s, first, later, 0)
  }

  /** The inner `for` loop of `route`: some pattern of the list matches. */
  predicate MatchesSome(ps: seq<Pattern>, s: string)
    decreases |ps|
  {
    ps != [] && (Matches(ps[0], s) || MatchesSome(ps[1..], s))
  }

  // ---------------------------------------------------------------------------
  // route
  // ---------------------------------------------------------------------------

  /** The order in which `route` tries the agents' pattern lists. */
  const Priority := [Code, Research, Reasoning]

  /** The first key of `order` one of whose patterns matches, or general. */
  function FirstMatch(order: seq<AgentKey>, s: string): AgentKey
    decreases |order|
  {
    if order == [] then General
    else if MatchesSome(Patterns(order[0]), s) then order[0]
    else FirstMatch(order[1..], s)
  }

  /** `route(query)`. */
  function Route(query: string): AgentKey
  {
    FirstMatch(Priority, ToLower(query))
  }

  // ---------------------------------------------------------------------------
  // What matching means
  // ---------------------------------------------------------------------------

  lemma {:induction false} StartsWithAnyIff(s: string, ws: seq<string>)
    ensures StartsWithAny(s, ws) <==> exists i :: 0 <= i < |ws| && ws[i] <= s
    decreases |ws|
  {
    if ws != [] {
      StartsWithAnyIff(s, ws[1..]);
      if StartsWithAny(s, ws[1..]) {
        var i :| 0 <= i < |ws[1..]| && ws[1..][i] <= s;
        assert ws[i + 1] <= s;
      }
      forall i | 0 < i < |ws| && ws[i] <= s ensures StartsWithAny(s, ws[1..]) {
        assert ws[1..][i - 1] == ws[i];
      }
    }
  }

  ghost predicate NoLineBreak(s: string)
  {
    forall i :: 0 <= i < |s| ==> !IsLineTerminator(s[i])
  }

  /** `.*` followed by one of `later`: some word of `later` starts at an
      offset `k` with no line terminator before it. */
  lemma {:induction false} LaterOnSameLineIff(s: string, later: seq<string>)
    ensures LaterOnSameLine(s, later) <==>
              exists k :: 0 <= k <= |s| && NoLineBreak(s[..k]) && StartsWithAny(s[k..], later)
    decreases |s|
  {
    assert s[..0] == [] && s[0..] == s;
    if s != [] {
      LaterOnSameLineIff(s[1..], later);
      if LaterOnSameLine(s, later) && !StartsWithAny(s, later) {
        var k :| 0 <= k <= |s[1..]| && NoLineBreak(s[1..][..k]) && StartsWithAny(s[1..][k..], later);
        assert s[..k + 1] == [s[0]] + s[1..][..k];
        assert s[k + 1..] == s[1..][k..];
      }
      forall k | 0 < k <= |s| && NoLineBreak(s[..k]) && StartsWithAny(s[k..], later)
        ensures LaterOnSameLine(s, later)
      {
        assert s[..k][0] == s[0];
        assert s[1..][..k - 1] == s[..k][1..];
        assert s[1..][k - 1..] == s[k..];
      }
    }
  }

  /** `first.*(…)` matches exactly when `first` occurs at some position and one
      of `later` follows it on the same line. */
  lemma {:induction false} FollowedFromIff(s: string, first: string, later: seq<string>, i: nat)
    ensures FollowedFrom(s, first, later, i) <==>
              exists p :: i <= p && OccursAt(s, first, p) && LaterOnSameLine(s[p + |first|..], later)
    decreases |s| + 1 - i
  {
    if i + |first| <= |s| {
      FollowedFromIff(s, first, later, i + 1);
      if s[i..i + |first|] == first && LaterOnSameLine(s[i + |first|..], later) {
        assert OccursAt(s, first, i);
      }
      forall p | i <= p && OccursAt(s, first, p) && LaterOnSameLine(s[p + |first|..], later)
        ensures FollowedFrom(s, first, later, i)
      {
        if p > i {
          assert i + 1 <= p;
        }
      }
    } else {
      forall p | i <= p ensures !OccursAt(s, first, p) {
      }
    }
  }

  /** `some(pattern => pattern.test(s))`. */
  lemma {:induction false} MatchesSomeIff(ps: seq<Pattern>, s: string)
    ensures MatchesSome(ps, s) <==> exists i :: 0 <= i < |ps| && Matches(ps[i], s)
    decreases |ps|
  {
    if ps != [] {
      MatchesSomeIff(ps[1..], s);
      if MatchesSome(ps[1..], s) {
        var i :| 0 <= i < |ps[1..]| && Matches(ps[1..][i], s);
        assert Matches(ps[i + 1], s);
      }
      forall i | 0 < i < |ps| && Matches(ps[i], s) ensures MatchesSome(ps[1..], s) {
        assert ps[1..][i - 1] == ps[i];
      }
    }
  }

  // ---------------------------------------------------------------------------
  // What route returns
  // ---------------------------------------------------------------------------

  /** Code is tried first, then research, then reasoning; general is returned
      exactly when none of the three lists has a matching pattern, and its own
      list is empty, so it is never matched directly. */
  lemma RouteSpec(query: string)
    ensures Route(query) == Code <==> MatchesSome(Patterns(Code), ToLower(query))
    ensures Route(query) == Research <==>
              !MatchesSome(Patterns(Code), ToLower(query)) && MatchesSome(Patterns(Research), ToLower(query))
    ensures Route(query) == Reasoning <==>
              !MatchesSome(Patterns(Code), ToLower(query)) && !MatchesSome(Patterns(Research), ToLower(query))
              && MatchesSome(Patterns(Reasoning), ToLower(query))
    ensures Route(query) == General <==>
              !MatchesSome(Patterns(Code), ToLower(query)) && !MatchesSome(Patterns(Research), ToLower(query))
              && !MatchesSome(Patterns(Reasoning), ToLower(query))
    ensures !MatchesSome(Patterns(General), ToLower(query))
  {
    var s := ToLower(query);
    assert Priority[1..] == [Research, Reasoning];
    assert Priority[1..][1..] == [Reasoning];
    assert Priority[1..][1..][1..] == [];
    assert FirstMatch([], s) == General;
  }

  /** Routing ignores letter case: a query routes like its lower-case form,
      and two queries that differ only in case route alike. */
  lemma RouteIgnoresCase(a: string, b: string)
    requires ToLower(a) == ToLower(b)
    ensures Route(a) == Route(b)
    ensures Route(ToLower(a)) == Route(a)
  {
    ToLowerIdempotent(a);
  }

  /** Research's `explain` is tried before reasoning's `explain why`, so a
      query with "explain why" and no code keyword routes to research. */
  lemma ExplainWhyGoesToResearch(query: string)
    requires Contains(ToLower(query), "explain why")
    requires !MatchesSome(Patterns(Code), ToLower(query))
    ensures Route(query) == Research
  {
    var s := ToLower(query);
    ContainsAtIndex("explain why", "explain", 0);
    ContainsTransitive(s, "explain why", "explain");
    assert Matches(ExplainWords, s);
    MatchesSomeIff(Patterns(Research), s);
    assert Patterns(Research)[3] == ExplainWords;
    RouteSpec(query);
  }

  // ---------------------------------------------------------------------------
  // Ruling patterns out
  // ---------------------------------------------------------------------------

  /** The literal text a pattern cannot match without: its words, its
      suffixes, or the word that must come first. */
  function Keywords(p: Pattern): seq<string>
  {
    match p
    case AnyOf(ws) => ws
    case EndsWithOneOf(ss) => ss
    case ThenOnSameLine(first, _) => [first]
  }

  lemma {:induction false} ContainsAnyWitness(s: string, ws: seq<string>)
    requires ContainsAny(s, ws)
    ensures exists k :: 0 <= k < |ws| && Contains(s, ws[k])
    decreases |ws|
  {
    if !Contains(s, ws[0]) {
      ContainsAnyWitness(s, ws[1..]);
      var k :| 0 <= k < |ws[1..]| && Contains(s, ws[1..][k]);
      assert ws[1..][k] == ws[k + 1];
    }
  }

  lemma {:induction false} EndsWithAnyWitness(s: string, ss: seq<string>)
    requires EndsWithAny(s, ss)
    ensures exists k :: 0 <= k < |ss| && EndsWith(s, ss[k])
    decreases |ss|
  {
    if !EndsWith(s, ss[0]) {
      EndsWithAnyWitness(s, ss[1..]);
      var k :| 0 <= k < |ss[1..]| && EndsWith(s, ss[1..][k]);
      assert ss[1..][k] == ss[k + 1];
    }
  }

  /** Every pattern needs one of its keywords somewhere in the text. */
  lemma MatchNeedsKeyword(p: Pattern, s: string)
    requires Matches(p, s)
    ensures exists k :: 0 <= k < |Keywords(p)| && Contains(s, Keywords(p)[k])
  {
    match p
    case AnyOf(ws) =>
      ContainsAnyWitness(s, ws);
      var k :| 0 <= k < |ws| && Contains(s, ws[k]);
      assert Contains(s, Keywords(p)[k]);
    case EndsWithOneOf(ss) =>
      EndsWithAnyWitness(s, ss);
      var k :| 0 <= k < |ss| && EndsWith(s, ss[k]);
      ContainsAtIndex(s, ss[k], |s| - |ss[k]|);
      assert Contains(s, Keywords(p)[k]);
    case ThenOnSameLine(first, later) =>
      FollowedFromIff(s, first, later, 0);
      var q :| 0 <= q && OccursAt(s, first, q) && LaterOnSameLine(s[q + |first|..], later);
      ContainsAtIndex(s, first, q);
      assert Keywords(p)[0] == first;
  }

  /** Each keyword of `p` starts with one of the `stems`: the `k`-th with
      `stems[at[k]]`. */
  predicate StemsCover(p: Pattern, at: seq<int>, stems: seq<string>)
  {
    |at| == |Keywords(p)|
    && forall k :: 0 <= k < |at| ==> 0 <= at[k] < |stems| && stems[at[k]] <= Keywords(p)[k]
  }

  predicate SpaceFree(stems: seq<string>)
  {
    forall m :: 0 <= m < |stems| ==> ' ' !in stems[m]
  }

  /** A pattern cannot match text made of `parts` joined by spaces when each
      of its keywords starts with one of some space-free stems and no part
      contains any of the stems. */
  lemma PatternOffParts(p: Pattern, at: seq<int>, stems: seq<string>, parts: seq<string>, s: string)
    requires parts != [] && s == Join(parts, " ")
    requires StemsCover(p, at, stems) && SpaceFree(stems)
    requires forall i, m :: 0 <= i < |parts| && 0 <= m < |stems| ==> !Contains(parts[i], stems[m])
    ensures !Matches(p, s)
  {
    if Matches(p, s) {
      MatchNeedsKeyword(p, s);
      var k :| 0 <= k < |at| && Contains(s, Keywords(p)[k]);
      var w := stems[at[k]];
      assert Keywords(p)[k][0..|w|] == w;
      ContainsAtIndex(Keywords(p)[k], w, 0);
      ContainsTransitive(s, Keywords(p)[k], w);
      assert ContainsAny(s, [w]);
      ContainsAnyJoin(parts, ' ', [w]);
    }
  }

  lemma MatchesNone(ps: seq<Pattern>, s: string)
    requires forall j :: 0 <= j < |ps| ==> !Matches(ps[j], s)
    ensures !MatchesSome(ps, s)
  {
    MatchesSomeIff(ps, s);
  }

  /** Space-free beginnings of the keywords of each key's patterns. */
  const CodeStems := ["build", "create", "make", "write", "web", "html", "css", "javascript", "typescript",
                      "code", "program", "app", ".", "file", "frontend", "backend", "fullstack"]
  const ResearchStems := ["research", "find", "search", "what", "who", "when", "where", "latest", "news", "recent",
                          "explain", "describe", "define", "history", "background", "overview",
                          "information", "facts", "details"]
  const ReasoningStems := ["analy", "compare", "contrast", "explain", "reason", "plan", "strategy",
                           "think", "consider", "advantage", "disadvantage", "pros", "cons"]

  // Where each keyword of the code patterns starts in `CodeStems`.

  lemma CodeStemsSpaceFree()
    ensures SpaceFree(CodeStems)
  {
  }

  lemma BuildVerbsStems()
    ensures StemsCover(BuildVerbs, [0, 1, 2, 3], CodeStems)
  {
  }

  lemma WebWordsStems()
    ensures StemsCover(WebWords, [4, 4, 5, 6, 7, 8], CodeStems)
  {
  }

  lemma ProgramWordsStems()
    ensures StemsCover(ProgramWords, [9, 10, 11, 11], CodeStems)
  {
  }

  lemma SourceSuffixStems()
    ensures StemsCover(SourceSuffix, [12, 12, 12, 12, 12, 12], CodeStems)
  {
  }

  lemma FileThenSourceStems()
    ensures StemsCover(FileThenSource, [13], CodeStems)
  {
  }

  lemma StackWordsStems()
    ensures StemsCover(StackWords, [14, 15, 16], CodeStems)
  {
  }

  /** No code pattern matches space-joined parts none of which holds a code stem. */
  lemma CodeOffParts(parts: seq<string>, s: string)
    requires parts != [] && s == Join(parts, " ")
    requires forall i, m :: 0 <= i < |parts| && 0 <= m < |CodeStems| ==> !Contains(parts[i], CodeStems[m])
    ensures !MatchesSome(Patterns(Code), s)
  {
    CodeStemsSpaceFree();
    BuildVerbsStems();
    PatternOffParts(BuildVerbs, [0, 1, 2, 3], CodeStems, parts, s);
    WebWordsStems();
    PatternOffParts(WebWords, [4, 4, 5, 6, 7, 8], CodeStems, parts, s);
    ProgramWordsStems();
    PatternOffParts(ProgramWords, [9, 10, 11, 11], CodeStems, parts, s);
    SourceSuffixStems();
    PatternOffParts(SourceSuffix, [12, 12, 12, 12, 12, 12], CodeStems, parts, s);
    FileThenSourceStems();
    PatternOffParts(FileThenSource, [13], CodeStems, parts, s);
    StackWordsStems();
    PatternOffParts(StackWords, [14, 15, 16], CodeStems, parts, s);
    assert Patterns(Code) == [BuildVerbs, WebWords, ProgramWords, SourceSuffix, FileThenSource, StackWords];
    MatchesNone(Patterns(Code), s);
  }

  // Where each keyword of the research patterns starts in `ResearchStems`.

  lemma ResearchStemsSpaceFree()
    ensures SpaceFree(ResearchStems)
  {
  }

  lemma SearchVerbsStems()
    ensures StemsCover(SearchVerbs, [0, 1, 2], ResearchStems)
  {
  }

  lemma QuestionOpenersStems()
    ensures StemsCover(QuestionOpeners, [3, 4, 5, 6], ResearchStems)
  {
  }

  lemma NewsWordsStems()
    ensures StemsCover(NewsWords, [7, 8, 9], ResearchStems)
  {
  }

  lemma ExplainWordsStems()
    ensures StemsCover(ExplainWords, [10, 11, 12], ResearchStems)
  {
  }

  lemma BackgroundWordsStems()
    ensures StemsCover(BackgroundWords, [13, 14, 15], ResearchStems)
  {
  }

  lemma DetailWordsStems()
    ensures StemsCover(DetailWords, [16, 17, 18], ResearchStems)
  {
  }

  /** No research pattern matches space-joined parts none of which holds a research stem. */
  lemma ResearchOffParts(parts: seq<string>, s: string)
    requires parts != [] && s == Join(parts, " ")
    requires forall i, m :: 0 <= i < |parts| && 0 <= m < |ResearchStems| ==> !Contains(parts[i], ResearchStems[m])
    ensures !MatchesSome(Patterns(Research), s)
  {
    ResearchStemsSpaceFree();
    SearchVerbsStems();
    PatternOffParts(SearchVerbs, [0, 1, 2], ResearchStems, parts, s);
    QuestionOpenersStems();
    PatternOffParts(QuestionOpeners, [3, 4, 5, 6], ResearchStems, parts, s);
    NewsWordsStems();
    PatternOffParts(NewsWords, [7, 8, 9], ResearchStems, parts, s);
    ExplainWordsStems();
    PatternOffParts(ExplainWords, [10, 11, 12], ResearchStems, parts, s);
    BackgroundWordsStems();
    PatternOffParts(BackgroundWords, [13, 14, 15], ResearchStems, parts, s);
    DetailWordsStems();
    PatternOffParts(DetailWords, [16, 17, 18], ResearchStems, parts, s);
    assert Patterns(Research) == [SearchVerbs, QuestionOpeners, NewsWords, ExplainWords, BackgroundWords, DetailWords];
    MatchesNone(Patterns(Research), s);
  }

  // Where each keyword of the reasoning patterns starts in `ReasoningStems`.

  lemma ReasoningStemsSpaceFree()
    ensures SpaceFree(ReasoningStems)
  {
  }

  lemma AnalysisWordsStems()
    ensures StemsCover(AnalysisWords, [0, 0], ReasoningStems)
  {
  }

  lemma CompareWordsStems()
    ensures StemsCover(CompareWords, [1, 2], ReasoningStems)
  {
  }

  lemma ReasonWordsStems()
    ensures StemsCover(ReasonWords, [3, 4], ReasoningStems)
  {
  }

  lemma PlanWordsStems()
    ensures StemsCover(PlanWords, [5, 6], ReasoningStems)
  {
  }

  lemma ConsiderWordsStems()
    ensures StemsCover(ConsiderWords, [7, 8], ReasoningStems)
  {
  }

  lemma ProsConsWordsStems()
    ensures StemsCover(ProsConsWords, [9, 10, 11, 12], ReasoningStems)
  {
  }

  /** No reasoning pattern matches space-joined parts none of which holds a reasoning stem. */
  lemma ReasoningOffParts(parts: seq<string>, s: string)
    requires parts != [] && s == Join(parts, " ")
    requires forall i, m :: 0 <= i < |parts| && 0 <= m < |ReasoningStems| ==> !Contains(parts[i], ReasoningStems[m])
    ensures !MatchesSome(Patterns(Reasoning), s)
  {
    ReasoningStemsSpaceFree();
    AnalysisWordsStems();
    PatternOffParts(AnalysisWords, [0, 0], ReasoningStems, parts, s);
    CompareWordsStems();
    PatternOffParts(CompareWords, [1, 2], ReasoningStems, parts, s);
    ReasonWordsStems();
    PatternOffParts(ReasonWords, [3, 4], ReasoningStems, parts, s);
    PlanWordsStems();
    PatternOffParts(PlanWords, [5, 6], ReasoningStems, parts, s);
    ConsiderWordsStems();
    PatternOffParts(ConsiderWords, [7, 8], ReasoningStems, parts, s);
    ProsConsWordsStems();
    PatternOffParts(ProsConsWords, [9, 10, 11, 12], ReasoningStems, parts, s);
    assert Patterns(Reasoning) == [AnalysisWords, CompareWords, ReasonWords, PlanWords, ConsiderWords, ProsConsWords];
    MatchesNone(Patterns(Reasoning), s);
  }

  // ---------------------------------------------------------------------------
  // Worked queries
  // ---------------------------------------------------------------------------

  // The lower-case forms of the worked queries, split at their spaces.
  const CapitalParts := ["what", "is", "the", "capital", "of", "france"]
  const ProsConsParts := ["compare", "the", "pros", "and", "cons", "of", "x", "vs", "y"]
  const HelloParts := ["hello", "there"]

  lemma CapitalLower(query: string)
    requires query == "what is the capital of France"
    ensures ToLower(query) == "what is the capital of france"
  {
  }

  lemma CapitalJoin()
    ensures Join(CapitalParts, " ") == "what is the capital of france"
  {
  }

  lemma CapitalLacksCodeStems()
    ensures forall i, m :: 0 <= i < |CapitalParts| && 0 <= m < |CodeStems| ==> !Contains(CapitalParts[i], CodeStems[m])
  {
  }

  lemma ProsConsLower(query: string)
    requires query == "compare the pros and cons of X vs Y"
    ensures ToLower(query) == "compare the pros and cons of x vs y"
  {
  }

  lemma ProsConsJoin()
    ensures Join(ProsConsParts, " ") == "compare the pros and cons of x vs y"
  {
  }

  lemma ProsConsLacksCodeStems()
    ensures forall i, m :: 0 <= i < |ProsConsParts| && 0 <= m < |CodeStems| ==> !Contains(ProsConsParts[i], CodeStems[m])
  {
  }

  lemma ProsConsLacksResearchStems()
    ensures forall i, m :: 0 <= i < |ProsConsParts| && 0 <= m < |ResearchStems| ==> !Contains(ProsConsParts[i], ResearchStems[m])
  {
  }

  lemma HelloLower(query: string)
    requires query == "hello there"
    ensures ToLower(query) == "hello there"
  {
  }

  lemma HelloJoin()
    ensures Join(HelloParts, " ") == "hello there"
  {
  }

  lemma HelloLacksCodeStems()
    ensures forall i, m :: 0 <= i < |HelloParts| && 0 <= m < |CodeStems| ==> !Contains(HelloParts[i], CodeStems[m])
  {
  }

  lemma HelloLacksResearchStems()
    ensures forall i, m :: 0 <= i < |HelloParts| && 0 <= m < |ResearchStems| ==> !Contains(HelloParts[i], ResearchStems[m])
  {
  }

  lemma HelloLacksReasoningStems()
    ensures forall i, m :: 0 <= i < |HelloParts| && 0 <= m < |ReasoningStems| ==> !Contains(HelloParts[i], ReasoningStems[m])
  {
  }

  lemma OpenerFound(s: string)
    requires "what is" <= s
    ensures MatchesSome(Patterns(Research), s)
  {
    ContainsAtIndex(s, "what is", 0);
    assert Matches(QuestionOpeners, s);
    MatchesSomeIff(Patterns(Research), s);
    assert Patterns(Research)[1] == QuestionOpeners;
  }

  lemma CompareFound(s: string)
    requires "compare" <= s
    ensures MatchesSome(Patterns(Reasoning), s)
  {
    ContainsAtIndex(s, "compare", 0);
    assert Matches(CompareWords, s);
    MatchesSomeIff(Patterns(Reasoning), s);
    assert Patterns(Reasoning)[1] == CompareWords;
  }

  lemma BuildWebsiteLower(query: string)
    requires query == "build me a website with html and css"
    ensures ToLower(query) == "build me a website with html and css"
  {
  }

  lemma WriteArticleLower(query: string)
    requires query == "write an article explaining the latest AI news"
    ensures ToLower(query) == "write an article explaining the latest ai news"
  {
    var a, b := "write an article explaining the latest ", " news";
    assert query == a + "AI" + b;
    ToLowerConcat(a + "AI", b);
    ToLowerConcat(a, "AI");
    ToLowerNoUpper(a);
    ToLowerNoUpper(b);
    assert ToLower("AI") == "ai" by {
      assert LowerChar('A') == 'a';
      assert LowerChar('I') == 'i';
    }
  }

  /** Text opening with one of the first pattern's verbs matches a code pattern. */
  lemma BuildVerbFound(s: string, k: nat)
    requires k < |BuildVerbs.words| && BuildVerbs.words[k] <= s
    ensures MatchesSome(Patterns(Code), s)
  {
    var w := BuildVerbs.words[k];
    assert s[0..|w|] == w;
    ContainsAtIndex(s, w, 0);
    ContainsAnyMember(s, BuildVerbs.words, k);
    assert Matches(BuildVerbs, s);
    MatchesSomeIff(Patterns(Code), s);
    assert Patterns(Code)[0] == BuildVerbs;
  }

  /** "build" opens the query, so it routes to code. */
  lemma RouteBuildWebsite(query: string)
    requires query == "build me a website with html and css"
    ensures Route(query) == Code
  {
    BuildWebsiteLower(query);
    BuildVerbFound(ToLower(query), 0);
    RouteSpec(query);
  }

  /** "write" opens the lower-cased query and "explain" starts at index 17. */
  lemma ArticleKeywords(s: string)
    requires s == "write an article explaining the latest ai news"
    ensures "write" <= s && Contains(s, "explain")
  {
    var front, back := "write an article ", "ing the latest ai news";
    assert s == front + "explain" + back;
    assert s[|front|..|front| + 7] == "explain";
    ContainsAtIndex(s, "explain", |front|);
  }

  lemma ExplainFound(s: string)
    requires Contains(s, "explain")
    ensures MatchesSome(Patterns(Research), s)
  {
    ContainsAnyMember(s, ExplainWords.words, 0);
    assert Matches(ExplainWords, s);
    MatchesSomeIff(Patterns(Research), s);
    assert Patterns(Research)[3] == ExplainWords;
  }

  /** This query matches a research pattern as well as a code pattern, and
      code wins by priority. */
  lemma RouteWriteArticle(query: string)
    requires query == "write an article explaining the latest AI news"
    ensures MatchesSome(Patterns(Research), ToLower(query))
    ensures Route(query) == Code
  {
    var s := ToLower(query);
    WriteArticleLower(query);
    ArticleKeywords(s);
    BuildVerbFound(s, 3);
    ExplainFound(s);
    RouteSpec(query);
  }

  /** No code keyword and the opener "what is": this query routes to research. */
  lemma RouteCapitalOfFrance(query: string)
    requires query == "what is the capital of France"
    ensures Route(query) == Research
  {
    var s := ToLower(query);
    CapitalLower(query);
    CapitalJoin();
    CapitalLacksCodeStems();
    CodeOffParts(CapitalParts, s);
    OpenerFound(s);
    RouteSpec(query);
  }

  /** No code or research keyword and the word "compare": this query routes
      to reasoning. */
  lemma RouteProsAndCons(query: string)
    requires query == "compare the pros and cons of X vs Y"
    ensures Route(query) == Reasoning
  {
    var s := ToLower(query);
    ProsConsLower(query);
    ProsConsJoin();
    ProsConsLacksCodeStems();
    CodeOffParts(ProsConsParts, s);
    ProsConsLacksResearchStems();
    ResearchOffParts(ProsConsParts, s);
    CompareFound(s);
    RouteSpec(query);
  }

  /** A query with no keyword of any list falls back to general. */
  lemma RouteHelloThere(query: string)
    requires query == "hello there"
    ensures Route(query) == General
  {
    var s := ToLower(query);
    HelloLower(query);
    HelloJoin();
    HelloLacksCodeStems();
    CodeOffParts(HelloParts, s);
    HelloLacksResearchStems();
    ResearchOffParts(HelloParts, s);
    HelloLacksReasoningStems();
    ReasoningOffParts(HelloParts, s);
    RouteSpec(query);
  }
}
