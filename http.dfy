/** The HTTP side of a server session, reduced to what the client code
    observes: a scripted sequence of responses, answered one per request, and
    a log of the requests and back-off pauses the client issued. */
module Http {
  import opened Wrappers
  import opened Resources

  /** A resource path: its segments in order. */
  type ResourceName = seq<string>

  /** A (user, app) service namespace. */
  datatype Namespace = Namespace(user: string, app: string)

  /** One name/value pair of a request's query or form body. */
  datatype Argument = Argument(name: string, value: string)

  /** What the Atom reader finds first in a response body (after any XML
      declaration): a feed, some other element read as an entry, or a node
      that is not an element at all. */
  datatype Body = FeedDocument(feed: Feed) | EntryDocument(entry: Entry) | NoElement

  datatype Response = Response(status: int, body: Body)

  /** 200 OK (section 6.3.1 of RFC 7231). */
  const OK: int := 200

  /** 204 No Content (section 6.3.5 of RFC 7231). */
  const NoContent: int := 204

  /** `IsSuccessStatusCode`: a 2xx status. */
  predicate IsSuccessStatus(status: int)
  {
    200 <= status <= 299
  }

  datatype Verb = GET | POST | DELETE

  /** What the client does to the outside world: a request, or one 500 ms
      back-off pause (`Task.Delay(500)`). */
  datatype Event =
    | Request(verb: Verb, ns: Namespace, path: ResourceName, args: seq<Argument>)
    | Delay

  /** The number of GET requests in a log. */
  function Gets(events: seq<Event>): (n: nat)
    ensures n <= |events|
  {
    if events == [] then 0
    else Gets(events[..|events| - 1]) + (if events[|events| - 1].Request? && events[|events| - 1].verb == GET then 1 else 0)
  }

  /** The number of pauses in a log. */
  function Delays(events: seq<Event>): (n: nat)
    ensures n <= |events|
  {
    if events == [] then 0
    else Delays(events[..|events| - 1]) + (if events[|events| - 1].Delay? then 1 else 0)
  }

  lemma {:induction false} CountsDistribute(a: seq<Event>, b: seq<Event>)
    ensures Gets(a + b) == Gets(a) + Gets(b)
    ensures Delays(a + b) == Delays(a) + Delays(b)
    decreases |b|
  {
    if b == [] {
      assert a + b == a;
    } else {
      CountsDistribute(a, b[..|b| - 1]);
      assert (a + b)[..|a + b| - 1] == a + b[..|b| - 1];
    }
  }

  /** One exchange with the script: its next response, or a transport
      failure once the script is exhausted; and what is left of it. */
  function Exchange(script: seq<Response>): (x: (Result<Response, Error>, seq<Response>))
    ensures script == [] ==> x == (Failure(Transport), [])
    ensures script != [] ==> x == (Success(script[0]), script[1..])
  {
    if script == [] then (Failure(Transport), []) else (Success(script[0]), script[1..])
  }

  /** `EnsureStatusCodeAsync(expected)`: a failed exchange, or any status but
      the expected one, is an error. */
  function ExpectStatus(response: Result<Response, Error>, expected: int): (err: Option<Error>)
    ensures err.None? <==> response.Success? && response.value.status == expected
    ensures response.Success? && err.Some? ==> err == Some(RequestError(response.value.status))
  {
    if response.Failure? then Some(response.error)
    else if response.value.status != expected then Some(RequestError(response.value.status))
    else None
  }

  /** The session collaborator (`Context`): answers each request with the
      next scripted response. */
  class Context {
    var responses: seq<Response>
    ghost var trace: seq<Event>

    constructor (script: seq<Response>)
      ensures responses == script && trace == []
    {
      responses := script;
      trace := [];
    }

    method Send(verb: Verb, ns: Namespace, path: ResourceName, args: seq<Argument>) returns (response: Result<Response, Error>)
      modifies this
      ensures (response, responses) == Exchange(old(responses))
      ensures trace == old(trace) + [Request(verb, ns, path, args)]
    {
      response, responses := Exchange(responses).0, Exchange(responses).1;
      trace := trace + [Request(verb, ns, path, args)];
    }

    /** `Task.Delay(500)`, as an event in the log. */
    method Pause()
      modifies this
      ensures responses == old(responses)
      ensures trace == old(trace) + [Delay]
    {
      trace := trace + [Delay];
    }
  }
}
