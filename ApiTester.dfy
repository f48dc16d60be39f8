/** ApiTester.js: a form that sends one GET request to an endpoint chosen
    from a fixed list and shows either the response record or the error
    record. `handleTest` is split into its synchronous start and its two
    completions, composed again by `HandleTest`; the two clock readings
    around the request are passed in. */
module ApiTester {
  import opened Wrappers
  import Web

  datatype Endpoint = Endpoint(path: string, verb: string, description: string)

  /** `API_ENDPOINTS`. */
  const ApiEndpoints: seq<Endpoint> := [
    Endpoint("/", "GET", "Point d'entrée principal"),
    Endpoint("/ping", "GET", "Test de ping"),
    Endpoint("/health", "GET", "Vérification de santé"),
    Endpoint("/classes", "GET", "Classes disponibles")]

  const BaseUrl := "http://172.189.136.13"
  const InitialEndpoint := "/ping"

  /** What a successful test keeps of the axios response. */
  datatype ResponseRecord = ResponseRecord(
    data: Web.Json,
    status: int,
    statusText: string,
    responseTime: int,
    headers: seq<(string, string)>)

  /** The `response` part of an axios error, when the server answered. */
  datatype ErrorResponse = ErrorResponse(status: int, statusText: string, data: Web.Json)

  /** What a failed test keeps: the error message and, when there was a
      response, its status, status text and body. */
  datatype ErrorRecord = ErrorRecord(
    message: string,
    status: Option<int>,
    statusText: Option<string>,
    data: Option<Web.Json>)

  /** How the awaited request ends, with the clock readings around it. */
  datatype TestReply =
    | Answered(data: Web.Json, status: int, statusText: string, headers: seq<(string, string)>,
               startTime: int, endTime: int)
    | Thrown(message: string, response: Option<ErrorResponse>)

  /** The paths on offer, in menu order. */
  function EndpointPaths(): (paths: seq<string>)
    ensures paths == ["/", "/ping", "/health", "/classes"]
    ensures InitialEndpoint in paths
  {
    seq(|ApiEndpoints|, i requires 0 <= i < |ApiEndpoints| => ApiEndpoints[i].path)
  }

  /** The menu offers four endpoints, all read with GET. */
  lemma EndpointsAreFourGets()
    ensures |ApiEndpoints| == 4
    ensures forall e :: e in ApiEndpoints ==> e.verb == "GET"
  {
  }

  /** The `error` record built in the `catch` clause: the status fields are
      present exactly when the error carried a response. */
  function ErrorRecordOf(message: string, response: Option<ErrorResponse>): (e: ErrorRecord)
    ensures e.message == message
    ensures response.None? ==> e.status.None? && e.statusText.None? && e.data.None?
    ensures response.Some? ==>
      e.status == Some(response.value.status) && e.statusText == Some(response.value.statusText)
      && e.data == Some(response.value.data)
  {
    match response
    case None => ErrorRecord(message, None, None, None)
    case Some(r) => ErrorRecord(message, Some(r.status), Some(r.statusText), Some(r.data))
  }

  /** The alert's headline text after the status: `statusText || message`. */
  function ErrorHeadline(e: ErrorRecord): (text: string)
    ensures Web.Truthy(e.statusText) ==> text == e.statusText.value
    ensures !Web.Truthy(e.statusText) ==> text == e.message
  {
    Web.ErrorMessage(e.statusText, e.message)
  }

  class Component {
    var selectedEndpoint: string
    var response: Option<ResponseRecord>
    var loading: bool
    var error: Option<ErrorRecord>

    /** The initial `useState` values: "/ping" selected, nothing shown. */
    constructor ()
      ensures selectedEndpoint == InitialEndpoint
      ensures response == None && !loading && error == None
    {
      selectedEndpoint := InitialEndpoint;
      response := None;
      loading := false;
      error := None;
    }

    /** The select's `onChange`. */
    method SelectEndpoint(path: string)
      modifies this
      ensures selectedEndpoint == path
      ensures response == old(response) && loading == old(loading) && error == old(error)
    {
      selectedEndpoint := path;
    }

    /** The synchronous part of `handleTest`: both records are cleared,
        `loading` is raised, and the request goes to the base URL followed
        by the selected path. */
    method BeginTest() returns (url: string)
      modifies this
      ensures url == BaseUrl + selectedEndpoint
      ensures loading && error == None && response == None
      ensures selectedEndpoint == old(selectedEndpoint)
    {
      loading := true;
      error := None;
      response := None;
      url := BaseUrl + selectedEndpoint;
    }

    /** The request resolved: the response record, with the time elapsed
        between the two clock readings. */
    method SucceedTest(data: Web.Json, status: int, statusText: string, headers: seq<(string, string)>,
                       startTime: int, endTime: int)
      modifies this
      ensures response == Some(ResponseRecord(data, status, statusText, endTime - startTime, headers))
      ensures !loading && error == old(error) && selectedEndpoint == old(selectedEndpoint)
    {
      response := Some(ResponseRecord(data, status, statusText, endTime - startTime, headers));
      loading := false;
    }

    /** The request was rejected: the error record. */
    method FailTest(message: string, resp: Option<ErrorResponse>)
      modifies this
      ensures error == Some(ErrorRecordOf(message, resp))
      ensures !loading && response == old(response) && selectedEndpoint == old(selectedEndpoint)
    {
      error := Some(ErrorRecordOf(message, resp));
      loading := false;
    }

    /** Exactly one of the two records is shown and nothing is pending. */
    predicate Settled()
      reads this
    {
      !loading && (response.Some? <==> error.None?)
    }

    /** The whole handler, run to completion: afterwards exactly one record
        is present, it is the one the reply calls for, and the selection is
        untouched. */
    method HandleTest(reply: TestReply) returns (url: string)
      modifies this
      ensures url == BaseUrl + old(selectedEndpoint)
      ensures Settled() && selectedEndpoint == old(selectedEndpoint)
      ensures reply.Answered? ==>
      response == Some(ResponseRecord(reply.data, reply.status, reply.statusText,
                                      reply.endTime - reply.startTime, reply.headers))
      ensures reply.Thrown? ==> error == Some(ErrorRecordOf(reply.message, reply.response))
    {
      url := BeginTest();
      match reply
      case Answered(data, status, statusText, headers, startTime, endTime) =>
        SucceedTest(data, status, statusText, headers, startTime, endTime);
      case Thrown(message, resp) =>
        FailTest(message, resp);
    }
  }
}
