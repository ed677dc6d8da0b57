/** The SerpAPI search component (`components/tools/SerpAPI.py`): a search
    tool that keeps at most `max_results` organic results and cuts their title
    and snippet to `max_snippet_length` characters, and the component's
    `run_model`, which turns those results into `Data` records or into one
    error record.

    The network call `SerpAPIWrapper.results` is a parameter: a function from
    the wrapper, the query and the search parameters to the response
    dictionary or the message of the exception it raised. */
module SerpApi {
  import opened Common
  import opened Strings

  /** Extra search parameters (a keyword-argument dictionary). */
  type Params = map<string, Value>

  /** One organic result as the service returns it. Missing keys are absent. */
  type OrganicResult = map<string, string>

  /** The wrapper's configuration: the API key and, when given, the default
      search parameters. */
  datatype Wrapper = Wrapper(apiKey: string, params: Option<Params>)

  /** The part of the service's response dictionary the tool reads: the
      `organic_results` list, or `None` when the key is missing. */
  datatype SearchResponse = SearchResponse(organicResults: Option<seq<OrganicResult>>)

  /** The `{"title", "link", "snippet"}` dictionary built for one result. */
  datatype Limited = Limited(title: string, link: string, snippet: string)

  /** The tool `build_tool` returns: its name, its description and the
      wrapper its function searches with. */
  datatype SerpTool = SerpTool(name: string, description: string, wrapper: Wrapper)

  /** Python's truth value of an optional dictionary. */
  predicate Given(p: Option<Params>)
  {
    p.Some? && |p.value| > 0
  }

  /** `_build_wrapper`: the search parameters reach the wrapper only when
      they are truthy. */
  function BuildWrapper(apiKey: string, searchParams: Option<Params>): (w: Wrapper)
    ensures w.apiKey == apiKey
    ensures w.params.Some? <==> Given(searchParams)
    ensures w.params.Some? ==> w.params == searchParams
  {
    if Given(searchParams) then Wrapper(apiKey, searchParams) else Wrapper(apiKey, None)
  }

  /** `params or {}`. */
  function EffectiveParams(p: Option<Params>): (r: Params)
    ensures Given(p) ==> r == p.value
    ensures !Given(p) ==> r == map[]
  {
    if Given(p) then p.value else map[]
  }

  /** `d.get(key, default)`. */
  function GetOr(m: OrganicResult, key: string, default: string): string
  {
    if key in m then m[key] else default
  }

  /** The dictionary built for one organic result. */
  function LimitResult(r: OrganicResult, maxSnippetLength: int): Limited
  {
    Limited(Head(GetOr(r, "title", ""), maxSnippetLength), GetOr(r, "link", ""),
            Head(GetOr(r, "snippet", ""), maxSnippetLength))
  }

  /** `full_results.get("organic_results", [])`. */
  function OrganicOf(resp: SearchResponse): seq<OrganicResult>
  {
    match resp.organicResults
    case None => []
    case Some(rs) => rs
  }

  /** The limited results of a response: the first `maxResults` organic
      results (Python's `[:max_results]`), each limited. */
  function Limit(organic: seq<OrganicResult>, maxResults: int, maxSnippetLength: int): (r: seq<Limited>)
    ensures |r| == HeadLength(|organic|, maxResults)
  {
    seq(HeadLength(|organic|, maxResults), k requires 0 <= k < HeadLength(|organic|, maxResults) =>
      LimitResult(organic[k], maxSnippetLength))
  }

  /** What `search_func` returns, or the exception the search raised. */
  function SearchOutcome(wrapper: Wrapper, search: (Wrapper, string, Params) -> Result<SearchResponse, string>,
                         query: string, params: Option<Params>, maxResults: int, maxSnippetLength: int)
    : Result<seq<Limited>, string>
  {
    match search(wrapper, query, EffectiveParams(params))
    case Err(e) => Err(e)
    case Ok(resp) => Ok(Limit(OrganicOf(resp), maxResults, maxSnippetLength))
  }

  /** `search_func`: calls the search, then copies the first `maxResults`
      organic results one by one into limited dictionaries. */
  method SearchFunc(wrapper: Wrapper, search: (Wrapper, string, Params) -> Result<SearchResponse, string>,
                    query: string, params: Option<Params>, maxResults: int, maxSnippetLength: int)
    returns (r: Result<seq<Limited>, string>)
    ensures r == SearchOutcome(wrapper, search, query, params, maxResults, maxSnippetLength)
  {
    var effective := if Given(params) then params.value else map[];
    var full := search(wrapper, query, effective);
    if full.Err? {
      return Err(full.error);
    }
    var organic := OrganicOf(full.value);
    organic := organic[..HeadLength(|organic|, maxResults)];
    var limited: seq<Limited> := [];
    var i := 0;
    while i < |organic|
      invariant 0 <= i <= |organic|
      invariant |limited| == i
      invariant forall k :: 0 <= k < i ==> limited[k] == LimitResult(organic[k], maxSnippetLength)
    {
      var result := organic[i];
      var title := if "title" in result then result["title"] else "";
      var link := if "link" in result then result["link"] else "";
      var snippet := if "snippet" in result then result["snippet"] else "";
      limited := limited + [Limited(Head(title, maxSnippetLength), link, Head(snippet, maxSnippetLength))];
      i := i + 1;
    }
    assert limited == Limit(OrganicOf(full.value), maxResults, maxSnippetLength);
    r := Ok(limited);
  }

  /** The limited dictionary as a `Data` payload: exactly the keys `title`,
      `link` and `snippet`. */
  function ToDict(l: Limited): (m: map<string, Value>)
    ensures m.Keys == {"title", "link", "snippet"}
    ensures m["title"] == Text(l.title) && m["link"] == Text(l.link) && m["snippet"] == Text(l.snippet)
  {
    map["title" := Text(l.title), "link" := Text(l.link), "snippet" := Text(l.snippet)]
  }

  /** `Data(data=result, text=result.get("snippet", ""))`. */
  function ToData(l: Limited): Data
  {
    Data(ToDict(l), Some(l.snippet))
  }

  /** The record list of a failed run: one record holding the message. */
  function ErrorData(message: string): Data
  {
    Data(map["error" := Text(message)], Some(message))
  }

  // ---------------------------------------------------------------------------
  // Properties of the limiter

  /** A non-negative limit keeps `min(maxResults, |organic|)` results, the
      i-th coming from the i-th organic result. */
  lemma LimitCountAndOrder(organic: seq<OrganicResult>, maxResults: int, maxSnippetLength: int)
    requires maxResults >= 0
    ensures var r := Limit(organic, maxResults, maxSnippetLength);
      |r| == (if maxResults < |organic| then maxResults else |organic|) &&
      forall k :: 0 <= k < |r| ==> r[k] == LimitResult(organic[k], maxSnippetLength)
  {
  }

  /** A response without `organic_results` gives no results. */
  lemma MissingOrganicResults(maxResults: int, maxSnippetLength: int)
    ensures Limit(OrganicOf(SearchResponse(None)), maxResults, maxSnippetLength) == []
  {
  }

  /** Title and snippet are prefixes of the given values of length
      `min(len, maxSnippetLength)`, missing values become `""`, and the link is
      copied as it is. */
  lemma LimitResultFields(r: OrganicResult, maxSnippetLength: int)
    requires maxSnippetLength >= 0
    ensures var l, title, snippet := LimitResult(r, maxSnippetLength), GetOr(r, "title", ""), GetOr(r, "snippet", "");
      l.title == title[..|l.title|] && |l.title| == (if maxSnippetLength < |title| then maxSnippetLength else |title|) &&
      l.snippet == snippet[..|l.snippet|] && |l.snippet| == (if maxSnippetLength < |snippet| then maxSnippetLength else |snippet|) &&
      l.link == GetOr(r, "link", "")
    ensures "title" !in r ==> LimitResult(r, maxSnippetLength).title == ""
    ensures "snippet" !in r ==> LimitResult(r, maxSnippetLength).snippet == ""
    ensures "link" !in r ==> LimitResult(r, maxSnippetLength).link == ""
  {
  }

  /** `params=None` searches with `{}`, exactly as an explicit empty dictionary. */
  lemma NoParamsSearchEmpty(wrapper: Wrapper, search: (Wrapper, string, Params) -> Result<SearchResponse, string>,
                            query: string, maxResults: int, maxSnippetLength: int)
    ensures SearchOutcome(wrapper, search, query, None, maxResults, maxSnippetLength)
         == SearchOutcome(wrapper, search, query, Some(map[]), maxResults, maxSnippetLength)
    ensures SearchOutcome(wrapper, search, query, None, maxResults, maxSnippetLength)
         == match search(wrapper, query, map[])
            case Err(e) => Err(e)
            case Ok(resp) => Ok(Limit(OrganicOf(resp), maxResults, maxSnippetLength))
  {
  }

  // ---------------------------------------------------------------------------
  // The component

  class SerpComponent {
    const apiKey: string
    const inputValue: string
    const searchParams: Option<Params>
    const maxResults: int
    const maxSnippetLength: int
    /** The service behind `SerpAPIWrapper.results`. */
    const search: (Wrapper, string, Params) -> Result<SearchResponse, string>
    var status: Status

    constructor (apiKey: string, inputValue: string, searchParams: Option<Params>, maxResults: int,
                 maxSnippetLength: int, search: (Wrapper, string, Params) -> Result<SearchResponse, string>)
      ensures this.apiKey == apiKey && this.inputValue == inputValue && this.searchParams == searchParams
      ensures this.maxResults == maxResults && this.maxSnippetLength == maxSnippetLength && this.search == search
      ensures status == NoStatus
    {
      this.apiKey := apiKey;
      this.inputValue := inputValue;
      this.searchParams := searchParams;
      this.maxResults := maxResults;
      this.maxSnippetLength := maxSnippetLength;
      this.search := search;
      status := NoStatus;
    }

    /** `build_tool`: a tool over the wrapper `_build_wrapper` chooses. */
    method BuildTool() returns (t: SerpTool)
      modifies this
      ensures t == SerpTool("serp_search_api", "Search for recent results using SerpAPI with result limiting",
                            BuildWrapper(apiKey, searchParams))
      ensures status == Message("SerpAPI Tool created")
    {
      var wrapper := BuildWrapper(apiKey, searchParams);
      t := SerpTool("serp_search_api", "Search for recent results using SerpAPI with result limiting", wrapper);
      status := Message("SerpAPI Tool created");
    }

    /** The outcome `run_model` reports: the limited results of the
        component's own query and settings. */
    ghost function Outcome(): Result<seq<Limited>, string>
      reads this
    {
      SearchOutcome(BuildWrapper(apiKey, searchParams), search, inputValue, Some(EffectiveParams(searchParams)),
                    maxResults, maxSnippetLength)
    }

    /** `run_model`: one record per result, whose text is the snippet, shown
        as the status; or, when the search raises, one error record and the
        status `"Error: <message>"`. */
    method RunModel() returns (r: seq<Data>)
      modifies this
      ensures Outcome().Ok? ==>
        |r| == |Outcome().value| && (forall k :: 0 <= k < |r| ==> r[k] == ToData(Outcome().value[k]))
        && status == Records(r)
      ensures Outcome().Err? ==>
        r == [ErrorData(Outcome().error)] && status == Message("Error: " + Outcome().error)
    {
      var tool := BuildTool();
      var params := if Given(searchParams) then searchParams.value else map[];
      var results := SearchFunc(tool.wrapper, search, inputValue, Some(params), maxResults, maxSnippetLength);
      if results.Err? {
        status := Message("Error: " + results.error);
        return [ErrorData(results.error)];
      }
      var data := seq(|results.value|, k requires 0 <= k < |results.value| => ToData(results.value[k]));
      status := Records(data);
      r := data;
    }
  }
}
