/** The Tavily search component (`components/tools/TavilyAISearch.py`):
    `_tavily_search` posts the query and its settings to the service and
    shapes the JSON answer into `Data` records (one per result, then an
    optional answer record in front and an optional images record at the
    end), or into a single error record; `run_model` forwards the
    component's fields.

    The HTTP exchange is a parameter: a function from the request payload to
    the decoded response body, an HTTP status error, or any other failure. */
module TavilySearch {
  import opened Common
  import opened Strings

  /** The request payload, field for field. */
  datatype Payload = Payload(
    apiKey: string,
    query: string,
    searchDepth: string,
    topic: string,
    maxResults: int,
    includeImages: bool,
    includeAnswer: bool)

  /** One entry of the `results` list: a JSON object. */
  type RawResult = map<string, Value>

  /** The parts of the decoded body the component reads: the `results` list
      (`None` when the key is missing), and the `answer` and `images` values
      (`Null` when missing). */
  datatype Response = Response(results: Option<seq<RawResult>>, answer: Value, images: Value)

  /** How the exchange ended: a body, `HTTPStatusError` with the status code
      and the response text, or any other exception with its message. */
  datatype Fetched = Body(response: Response) | HttpStatusError(code: nat, text: string) | Failure(message: string)

  /** `result.get(key)`. */
  function Get(m: RawResult, key: string): Value
  {
    if key in m then m[key] else Null
  }

  /** The record of one result: exactly `title`, `url`, `content` and `score`,
      a missing one being `None`. */
  function ResultData(r: RawResult): (d: Data)
    ensures d.data.Keys == {"title", "url", "content", "score"}
    ensures forall key :: key in d.data ==> d.data[key] == Get(r, key)
    ensures d.text == None
  {
    Data(map["title" := Get(r, "title"), "url" := Get(r, "url"), "content" := Get(r, "content"),
             "score" := Get(r, "score")], None)
  }

  /** `search_results.get("results", [])`. */
  function ResultsOf(resp: Response): seq<RawResult>
  {
    match resp.results
    case None => []
    case Some(rs) => rs
  }

  /** The answer record is added when asked for and the answer is truthy. */
  predicate AddsAnswer(resp: Response, includeAnswer: bool)
  {
    includeAnswer && Truthy(resp.answer)
  }

  /** The images record is added when asked for and the images are truthy. */
  predicate AddsImages(resp: Response, includeImages: bool)
  {
    includeImages && Truthy(resp.images)
  }

  function AnswerData(resp: Response): Data
  {
    Data(map["answer" := resp.answer], None)
  }

  function ImagesData(resp: Response): Data
  {
    Data(map["images" := resp.images], None)
  }

  /** The records of a successful search, as a single expression: the
      independent description of what the steps of `_tavily_search` build. */
  function Shape(resp: Response, includeImages: bool, includeAnswer: bool): seq<Data>
  {
    var rs := ResultsOf(resp);
    (if AddsAnswer(resp, includeAnswer) then [AnswerData(resp)] else [])
    + seq(|rs|, k requires 0 <= k < |rs| => ResultData(rs[k]))
    + (if AddsImages(resp, includeImages) then [ImagesData(resp)] else [])
  }

  function HttpErrorMessage(code: nat, text: string): string
  {
    "HTTP error: " + NatToString(code) + " - " + text
  }

  function UnexpectedErrorMessage(message: string): string
  {
    "Unexpected error: " + message
  }

  /** The single record of a failed search. */
  function ErrorData(message: string): Data
  {
    Data(map["error" := Text(message)], None)
  }

  /** The records and the status message of one search. */
  function Outcome(fetched: Fetched, includeImages: bool, includeAnswer: bool): (r: (seq<Data>, Option<string>))
  {
    match fetched
    case Body(resp) => (Shape(resp, includeImages, includeAnswer), None)
    case HttpStatusError(code, text) => ([ErrorData(HttpErrorMessage(code, text))], Some(HttpErrorMessage(code, text)))
    case Failure(message) => ([ErrorData(UnexpectedErrorMessage(message))], Some(UnexpectedErrorMessage(message)))
  }

  // ---------------------------------------------------------------------------
  // Properties of the shaping

  /** One record per result, plus one for each extra record added. */
  lemma ShapeLength(resp: Response, includeImages: bool, includeAnswer: bool)
    ensures |Shape(resp, includeImages, includeAnswer)| ==
      |ResultsOf(resp)| + (if AddsAnswer(resp, includeAnswer) then 1 else 0)
                        + (if AddsImages(resp, includeImages) then 1 else 0)
  {
  }

  /** The answer record is first exactly when it is added. */
  lemma AnswerFirst(resp: Response, includeImages: bool, includeAnswer: bool)
    ensures var s := Shape(resp, includeImages, includeAnswer);
      AddsAnswer(resp, includeAnswer) <==> (|s| > 0 && "answer" in s[0].data)
    ensures AddsAnswer(resp, includeAnswer) ==> Shape(resp, includeImages, includeAnswer)[0] == AnswerData(resp)
  {
    var s := Shape(resp, includeImages, includeAnswer);
    if !AddsAnswer(resp, includeAnswer) && |s| > 0 {
      if |ResultsOf(resp)| > 0 {
        assert s[0] == ResultData(ResultsOf(resp)[0]);
      } else {
        assert s[0] == ImagesData(resp);
      }
    }
  }

  /** The images record is last exactly when it is added. */
  lemma ImagesLast(resp: Response, includeImages: bool, includeAnswer: bool)
    ensures var s := Shape(resp, includeImages, includeAnswer);
      AddsImages(resp, includeImages) <==> (|s| > 0 && "images" in s[|s| - 1].data)
    ensures var s := Shape(resp, includeImages, includeAnswer);
      AddsImages(resp, includeImages) ==> s[|s| - 1] == ImagesData(resp)
  {
    var s := Shape(resp, includeImages, includeAnswer);
    var rs := ResultsOf(resp);
    if !AddsImages(resp, includeImages) && |s| > 0 {
      if |rs| > 0 {
        assert s[|s| - 1] == ResultData(rs[|rs| - 1]);
      } else {
        assert s[|s| - 1] == AnswerData(resp);
      }
    }
  }

  /** The result records sit between the extra records, in result order. */
  lemma ResultsInOrder(resp: Response, includeImages: bool, includeAnswer: bool, k: nat)
    requires k < |ResultsOf(resp)|
    ensures var offset := if AddsAnswer(resp, includeAnswer) then 1 else 0;
      offset + k < |Shape(resp, includeImages, includeAnswer)| &&
      Shape(resp, includeImages, includeAnswer)[offset + k] == ResultData(ResultsOf(resp)[k])
  {
  }

  /** A body without `results` gives no result records. */
  lemma MissingResults(answer: Value, images: Value, includeImages: bool, includeAnswer: bool)
    ensures Shape(Response(None, answer, images), includeImages, includeAnswer) ==
      (if includeAnswer && Truthy(answer) then [AnswerData(Response(None, answer, images))] else [])
      + (if includeImages && Truthy(images) then [ImagesData(Response(None, answer, images))] else [])
  {
  }

  /** An HTTP status error gives exactly one record, holding the code and the
      response text. */
  lemma HttpErrorRecord(code: nat, text: string, includeImages: bool, includeAnswer: bool)
    ensures Outcome(HttpStatusError(code, text), includeImages, includeAnswer).0 ==
      [Data(map["error" := Text("HTTP error: " + NatToString(code) + " - " + text)], None)]
    ensures var m := Outcome(HttpStatusError(code, text), includeImages, includeAnswer).1;
      m.Some? && m.value[..|"HTTP error: "|] == "HTTP error: "
  {
  }

  /** The status code can be read back from the message. */
  lemma HttpErrorMessageCode(code: nat, text: string)
    ensures var m, digits := HttpErrorMessage(code, text), NatToString(code);
      m[|"HTTP error: "|..|"HTTP error: "| + |digits|] == digits &&
      ParseNat(m[|"HTTP error: "|..|"HTTP error: "| + |digits|]) == code
  {
    ParseNatToString(code);
    var digits := NatToString(code);
    var m := HttpErrorMessage(code, text);
    assert m == "HTTP error: " + digits + (" - " + text);
  }

  // ---------------------------------------------------------------------------
  // The component

  class TavilyComponent {
    const apiKey: string
    const query: string
    const searchDepth: string
    const topic: string
    const maxResults: int
    const includeImages: bool
    const includeAnswer: bool
    /** The service behind the HTTP POST. */
    const post: Payload -> Fetched
    var status: Status

    constructor (apiKey: string, query: string, searchDepth: string, topic: string, maxResults: int,
                 includeImages: bool, includeAnswer: bool, post: Payload -> Fetched)
      ensures this.apiKey == apiKey && this.query == query && this.searchDepth == searchDepth
      ensures this.topic == topic && this.maxResults == maxResults
      ensures this.includeImages == includeImages && this.includeAnswer == includeAnswer && this.post == post
      ensures status == NoStatus
    {
      this.apiKey := apiKey;
      this.query := query;
      this.searchDepth := searchDepth;
      this.topic := topic;
      this.maxResults := maxResults;
      this.includeImages := includeImages;
      this.includeAnswer := includeAnswer;
      this.post := post;
      status := NoStatus;
    }

    /** `_tavily_search`: posts the payload, maps the results, inserts the
        answer record at the front and appends the images record; the status
        is the returned list on success and the error message otherwise. */
    method Search(query: string, searchDepth: string, topic: string, maxResults: int,
                  includeImages: bool, includeAnswer: bool) returns (r: seq<Data>)
      modifies this
      ensures var fetched := post(Payload(apiKey, query, searchDepth, topic, maxResults, includeImages, includeAnswer));
        r == Outcome(fetched, includeImages, includeAnswer).0 &&
        status == match Outcome(fetched, includeImages, includeAnswer).1
                  case None => Records(r)
                  case Some(m) => Message(m)
    {
      var payload := Payload(apiKey, query, searchDepth, topic, maxResults, includeImages, includeAnswer);
      var fetched := post(payload);
      match fetched {
        case HttpStatusError(code, text) =>
          var message := "HTTP error: " + NatToString(code) + " - " + text;
          status := Message(message);
          return [ErrorData(message)];
        case Failure(e) =>
          var message := "Unexpected error: " + e;
          status := Message(message);
          return [ErrorData(message)];
        case Body(resp) =>
          var rs := ResultsOf(resp);
          var dataResults := seq(|rs|, k requires 0 <= k < |rs| => ResultData(rs[k]));
          if includeAnswer && Truthy(resp.answer) {
            dataResults := [Data(map["answer" := resp.answer], None)] + dataResults;
          }
          if includeImages && Truthy(resp.images) {
            dataResults := dataResults + [Data(map["images" := resp.images], None)];
          }
          status := Records(dataResults);
          r := dataResults;
      }
    }

    /** `run_model`: the search with the component's own six settings, in
        the order of the parameters. */
    method RunModel() returns (r: seq<Data>)
      modifies this
      ensures var fetched := post(Payload(apiKey, query, searchDepth, topic, maxResults, includeImages, includeAnswer));
        r == Outcome(fetched, includeImages, includeAnswer).0 &&
        status == match Outcome(fetched, includeImages, includeAnswer).1
                  case None => Records(r)
                  case Some(m) => Message(m)
    {
      r := Search(query, searchDepth, topic, maxResults, includeImages, includeAnswer);
    }
  }
}
