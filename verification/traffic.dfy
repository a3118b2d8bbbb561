/** The live traffic provider of the route planner (main.py,
    `get_real_time_traffic_data`).

    The HTTP round trip itself (building the URL, `requests.get`,
    `raise_for_status`, decoding the JSON body) is I/O and is represented by
    a `Transport`: a function the caller supplies that either delivers the
    decoded response body or reports that the request raised. What this
    module models is what the provider hands on: a failed request never
    escapes, it becomes an absent snapshot, and a delivered body, which may
    itself be JSON `null`, is passed on unchanged. */
module Traffic {
  import opened Optional

  /** A stop, as a (latitude, longitude) pair; floats are modelled as reals. */
  datatype Coordinate = Coordinate(lat: real, lon: real)

  /** What one request to the traffic service yields: the decoded response
      body (`None` when the body is JSON `null`), or the request exception it
      raised (a transport failure, an unsuccessful HTTP status, or a body
      that does not decode). The contents of a snapshot `S` are left
      abstract: the planner only tests whether one is there. */
  datatype FetchOutcome<+S> = Fetched(body: Option<S>) | RequestError(message: string)

  /** The traffic service, as seen from the planner: API key, start, end. */
  type Transport<!S> = (string, Coordinate, Coordinate) -> FetchOutcome<S>

  /** One request made to the traffic service. */
  datatype Query = Query(apiKey: string, start: Coordinate, end: Coordinate)

  /** The service answered the request with a non-null body. */
  predicate Delivers<S>(transport: Transport<S>, apiKey: string, start: Coordinate, end: Coordinate)
  {
    transport(apiKey, start, end).Fetched? && transport(apiKey, start, end).body.Some?
  }

  /** Fetch the traffic snapshot for one leg. A request exception is
      absorbed and turned into `None`; a delivered body is passed on as it
      is, so a snapshot is present exactly when the service delivered a
      non-null body. */
  function GetRealTimeTrafficData<S>(transport: Transport<S>, apiKey: string,
                                     start: Coordinate, end: Coordinate): (r: Option<S>)
    ensures r.Some? <==> Delivers(transport, apiKey, start, end)
    ensures transport(apiKey, start, end).RequestError? ==> r.None?
    ensures r.Some? ==> transport(apiKey, start, end) == Fetched(r)
  {
    match transport(apiKey, start, end)
    case Fetched(body) => body
    case RequestError(_) => None
  }

  /** The traffic service together with the requests made of it so far.
      `Fetch` is the only way the planner obtains a snapshot, and it records
      every request it answers. */
  datatype Provider<!S> = Provider(transport: Transport<S>, requests: seq<Query>) {

    /** Answer one request as `GetRealTimeTrafficData` does and append it to
        the log; the service itself is unchanged. */
    function Fetch(apiKey: string, start: Coordinate, end: Coordinate): (r: (Provider<S>, Option<S>))
      ensures r.0.transport == transport
      ensures r.0.requests == requests + [Query(apiKey, start, end)]
      ensures r.1.Some? <==> Delivers(transport, apiKey, start, end)
      ensures r.1 == GetRealTimeTrafficData(transport, apiKey, start, end)
    {
      (Provider(transport, requests + [Query(apiKey, start, end)]),
       GetRealTimeTrafficData(transport, apiKey, start, end))
    }
  }
}
