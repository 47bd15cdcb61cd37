/** The query router of the agent (src/agent/langgraph_agent.py): a
    keyword-priority cascade over the lower-cased query that picks one tool
    and derives the argument it is called with.

    The tools themselves (the store queries behind them) are not called
    here: a route records which tool runs and with what argument. The
    regular-expression engine is the parameter `search`, and the texts of
    the chunks the hybrid search returns are the parameter `hits`. */
module Router {
  import opened Collections
  import opened Text

  /** The four patterns `detect_indicator` tries, in order. */
  datatype IndicatorRegex = UrlRegex | IpRegex | EmailRegex | SocialRegex

  function RegexPattern(re: IndicatorRegex): string {
    match re
    case UrlRegex => @"https?://\S+|www\.\S+"
    case IpRegex => @"\b(?:\d{1,3}\.){3}\d{1,3}\b"
    case EmailRegex => @"\b[A-Za-z0-9._%+-]+@[A-Za-z0-9.-]+\.[A-Za-z]{2,}\b"
    case SocialRegex => @"\b(?:t\.me|twitter\.com|x\.com|youtube\.com)/\S+\b"
  }

  /** Only the social pattern is compiled with `re.I`. */
  predicate IgnoresCase(re: IndicatorRegex) {
    re.SocialRegex?
  }

  /** `re.compile(RegexPattern(re), flags).search(text) is not None`, with
      `re.I` among the flags exactly when `IgnoresCase(re)`. The engine is
      handed the pattern by name; `RegexPattern` gives its text. */
  type Searcher = (IndicatorRegex, string) -> bool

  /** The texts of the chunks `tool_search(query, k)` returns, best first. */
  type SearchTool = (string, nat) -> seq<string>

  predicate Matches(search: Searcher, re: IndicatorRegex, text: string) {
    search(re, text)
  }

  /** `detect_indicator(q)`: some indicator pattern finds a match in `q`. */
  function DetectIndicator(q: string, search: Searcher): (r: bool)
    ensures r <==> exists re :: Matches(search, re, q)
  {
    assert (exists re :: Matches(search, re, q)) ==>
      Matches(search, UrlRegex, q) || Matches(search, IpRegex, q)
      || Matches(search, EmailRegex, q) || Matches(search, SocialRegex, q) by {
      if re :| Matches(search, re, q) {
        assert re.UrlRegex? || re.IpRegex? || re.EmailRegex? || re.SocialRegex?;
      }
    }
    Matches(search, UrlRegex, q) || Matches(search, IpRegex, q)
      || Matches(search, EmailRegex, q) || Matches(search, SocialRegex, q)
  }

  /** The reply of `router_fn`, with the tool it calls and that tool's
      argument in place of the tool's result. `query` is the query as
      given; the network reply carries the lower-cased query as
      `indicator` instead. */
  datatype Route =
    | Clusters(query: string)
    | Timeline(query: string, value: string)
    | Network(indicator: string, value: string)
    | Context(query: string, value: string)
    | Search(query: string, k: nat, answer: string)

  /** The `action` field of the reply. */
  function ActionName(r: Route): string {
    match r
    case Clusters(_) => "clusters"
    case Timeline(_, _) => "timeline"
    case Network(_, _) => "network"
    case Context(_, _) => "context"
    case Search(_, _, _) => "search"
  }

  /** `res[0]` raises `IndexError` when the search finds nothing. */
  datatype RouteError = NoSearchHits(query: string)

  /** The number of chunks the search branch asks for. */
  const SearchK: nat := 2

  /** The lower-cased query contains `word`. */
  predicate Has(query: string, word: string) {
    Contains(Lower(query), word)
  }

  /** The lower-cased query with every `word` removed, then stripped. */
  function Without(query: string, word: string): string
    requires |word| > 0
  {
    Strip(ReplaceAll(Lower(query), word, ""))
  }

  /** `router_fn({"query": query})`. */
  function RouterFn(query: string, search: Searcher, hits: SearchTool): Result<Route, RouteError> {
    var q := Lower(query);
    if Has(query, "cluster") then Success(Clusters(query))
    else if Has(query, "timeline") then Success(Timeline(query, Without(query, "timeline")))
    else if Has(query, "network") then Success(Network(q, Without(query, "network")))
    else if DetectIndicator(query, search) || Has(query, "context") then
      Success(Context(query, if Has(query, "context") then Without(query, "context") else q))
    else
      var res := hits(q, SearchK);
      if res == [] then Failure(NoSearchHits(q)) else Success(Search(query, SearchK, res[0]))
  }

  /** The value handed to a tool after removing a keyword that occurs is
      shorter than the query by at least the keyword, and has no
      whitespace at either end. */
  lemma WithoutShorter(query: string, word: string)
    requires |word| > 0 && Has(query, word)
    ensures |Without(query, word)| + |word| <= |query|
    ensures |Without(query, word)| > 0 ==>
      !IsSpace(Without(query, word)[0]) && !IsSpace(Without(query, word)[|Without(query, word)| - 1])
  {
    ReplaceAllDeleteShorter(Lower(query), word);
  }

  /** `cluster` wins over every other keyword and over an indicator. */
  lemma RouteClusters(query: string, search: Searcher, hits: SearchTool)
    ensures RouterFn(query, search, hits) == Success(Clusters(query)) <==> Has(query, "cluster")
  {
  }

  /** The timeline route is taken exactly when `timeline` occurs and
      `cluster` does not; it looks up the query without the keyword. */
  lemma RouteTimeline(query: string, search: Searcher, hits: SearchTool)
    ensures var r := RouterFn(query, search, hits);
      r.Success? && r.value.Timeline? <==> !Has(query, "cluster") && Has(query, "timeline")
    ensures var r := RouterFn(query, search, hits);
      r.Success? && r.value.Timeline? ==>
        && r.value.query == query
        && r.value.value == Strip(ReplaceAll(Lower(query), "timeline", ""))
        && |r.value.value| + |"timeline"| <= |query|
  {
    if !Has(query, "cluster") && Has(query, "timeline") {
      WithoutShorter(query, "timeline");
    }
  }

  /** The network route is taken exactly when `network` occurs and neither
      earlier keyword does; its `indicator` is the whole lower-cased query,
      while the tool gets the query without the keyword. */
  lemma RouteNetwork(query: string, search: Searcher, hits: SearchTool)
    ensures var r := RouterFn(query, search, hits);
      r.Success? && r.value.Network? <==>
        !Has(query, "cluster") && !Has(query, "timeline") && Has(query, "network")
    ensures var r := RouterFn(query, search, hits);
      r.Success? && r.value.Network? ==>
        && r.value.indicator == Lower(query)
        && r.value.value == Strip(ReplaceAll(Lower(query), "network", ""))
        && |r.value.value| + |"network"| <= |r.value.indicator|
  {
    if !Has(query, "cluster") && !Has(query, "timeline") && Has(query, "network") {
      WithoutShorter(query, "network");
    }
  }

  /** The context route is taken when no earlier keyword occurs and the
      query holds an indicator or the word `context`; the word is removed
      only when present, otherwise the whole lower-cased query is looked
      up. */
  lemma RouteContext(query: string, search: Searcher, hits: SearchTool)
    ensures var r := RouterFn(query, search, hits);
      r.Success? && r.value.Context? <==>
        && !Has(query, "cluster") && !Has(query, "timeline") && !Has(query, "network")
        && (DetectIndicator(query, search) || Has(query, "context"))
    ensures var r := RouterFn(query, search, hits);
      r.Success? && r.value.Context? && !Has(query, "context") ==> r.value.value == Lower(query)
    ensures var r := RouterFn(query, search, hits);
      r.Success? && r.value.Context? && Has(query, "context") ==>
        && r.value.value == Strip(ReplaceAll(Lower(query), "context", ""))
        && |r.value.value| + |"context"| <= |query|
  {
    if Has(query, "context") {
      WithoutShorter(query, "context");
    }
  }

  /** Otherwise the router searches for the lower-cased query with `k = 2`
      and answers with the best hit's text; it fails exactly when there is
      no hit. */
  lemma RouteSearch(query: string, search: Searcher, hits: SearchTool)
    requires !Has(query, "cluster") && !Has(query, "timeline") && !Has(query, "network")
    requires !DetectIndicator(query, search) && !Has(query, "context")
    ensures RouterFn(query, search, hits).Failure? <==> hits(Lower(query), 2) == []
    ensures RouterFn(query, search, hits).Success? ==>
      RouterFn(query, search, hits) == Success(Search(query, 2, hits(Lower(query), 2)[0]))
  {
  }

  /** Only the search branch can fail. */
  lemma RouteFailure(query: string, search: Searcher, hits: SearchTool)
    requires RouterFn(query, search, hits).Failure?
    ensures !Has(query, "cluster") && !Has(query, "timeline") && !Has(query, "network")
    ensures !DetectIndicator(query, search) && !Has(query, "context")
    ensures hits(Lower(query), SearchK) == []
  {
  }

  /** The action `router_fn` takes, read off the lower-cased query `q`,
      whether the query holds an indicator, and the search tool; `None`
      when the search finds nothing. */
  function ActionFor(q: string, indicator: bool, hits: SearchTool): Option<string> {
    if Contains(q, "cluster") then Some("clusters")
    else if Contains(q, "timeline") then Some("timeline")
    else if Contains(q, "network") then Some("network")
    else if indicator || Contains(q, "context") then Some("context")
    else if hits(q, SearchK) == [] then None
    else Some("search")
  }

  /** The action of a reply depends only on the lower-cased query, on
      whether the query holds an indicator, and on the search's hits. */
  lemma RouteAction(query: string, search: Searcher, hits: SearchTool)
    ensures var a := ActionFor(Lower(query), DetectIndicator(query, search), hits);
      && (RouterFn(query, search, hits).Success? <==> a.Some?)
      && (a.Some? ==> ActionName(RouterFn(query, search, hits).value) == a.value)
  {
  }

  /** The keywords are matched without regard to case: queries that agree
      once lower-cased, and on whether they hold an indicator, take the
      same action. */
  lemma RouteIgnoresCase(q1: string, q2: string, search: Searcher, hits: SearchTool)
    requires Lower(q1) == Lower(q2)
    requires DetectIndicator(q1, search) == DetectIndicator(q2, search)
    ensures RouterFn(q1, search, hits).Success? == RouterFn(q2, search, hits).Success?
    ensures RouterFn(q1, search, hits).Success? ==>
      ActionName(RouterFn(q1, search, hits).value) == ActionName(RouterFn(q2, search, hits).value)
  {
    RouteAction(q1, search, hits);
    RouteAction(q2, search, hits);
  }
}
