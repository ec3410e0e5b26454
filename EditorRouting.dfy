/**
 * What the editor server does with a request once it is read: the
 * endpoint routing of `EndPoint.handleRequest`, the event-stream check of
 * `handle_sse`, the canned 404 response, and the server's list of open
 * streams and its table of the latest statistics.
 */
module EditorRouting {
  import opened Wrappers
  import opened JavaText
  import opened JavaStrings
  import opened EditorRequests
  import opened StaticAssets

  /** The HTTP methods an endpoint may require. */
  datatype EndpointMethod = Get | Post | Any

  /** The enum constant's name, which `matches` compares against. */
  function MethodName(m: EndpointMethod): string
  {
    match m
    case Get => "GET"
    case Post => "POST"
    case Any => "ANY"
  }

  /** `EndpointMethod.matches`: the request method equals the constant's name, ignoring case. */
  predicate Matches(m: EndpointMethod, verb: string)
  {
    EqualsIgnoreCase(verb, MethodName(m))
  }

  /** Matching depends on the spelling of the method only up to case. */
  lemma MatchesIgnoresCase(m: EndpointMethod, a: string, b: string)
    requires EqualsIgnoreCase(a, b)
    ensures Matches(m, a) <==> Matches(m, b)
  {
    EqualsIgnoreCaseIsEquivalence(a, b, MethodName(m));
    EqualsIgnoreCaseIsEquivalence(b, a, MethodName(m));
  }

  /** Any spelling of "get" matches GET; "POST" does not, and ANY only matches the word "any". */
  lemma MatchesExamples()
    ensures Matches(Get, "get") && Matches(Get, "Get") && Matches(Get, "GET")
    ensures !Matches(Get, "POST") && !Matches(Any, "GET")
  {
    LowerEqualsUpperIgnoringCase("get", "GET");
    assert UpperAscii('e') == 'E';
    assert UpperAscii('t') == 'T';
    assert |"POST"| != |MethodName(Get)|;
    assert UpperAscii("GET"[0]) != UpperAscii(MethodName(Any)[0]);
  }

  /** The endpoints, in declaration order. */
  datatype EndPoint = NotFound | EventSource | Asset

  const EndPoints: seq<EndPoint> := [NotFound, EventSource, Asset]

  const EventsUri: string := "/events"

  function MethodOf(e: EndPoint): EndpointMethod
  {
    match e
    case NotFound => Any
    case EventSource => Get
    case Asset => Get
  }

  /** Each endpoint's URI filter: never, exactly "/events", or a registered static asset. */
  predicate UriFilter(e: EndPoint, uri: string)
  {
    match e
    case NotFound => false
    case EventSource => uri == EventsUri
    case Asset => IsAsset(uri)
  }

  /** Both filters of handleRequest's stream pass. */
  predicate Accepts(e: EndPoint, verb: string, uri: string)
  {
    Matches(MethodOf(e), verb) && UriFilter(e, uri)
  }

  /** `findFirst` over the filtered endpoints. */
  function FirstMatch(es: seq<EndPoint>, verb: string, uri: string): (r: Option<nat>)
    ensures r.None? <==> forall i :: 0 <= i < |es| ==> !Accepts(es[i], verb, uri)
    ensures r.Some? ==> r.value < |es| && Accepts(es[r.value], verb, uri)
    ensures r.Some? ==> forall i :: 0 <= i < r.value ==> !Accepts(es[i], verb, uri)
  {
    if |es| == 0 then None
    else if Accepts(es[0], verb, uri) then Some(0)
    else match FirstMatch(es[1..], verb, uri)
      case None => None
      case Some(k) => Some(k + 1)
  }

  /** handleRequest: the first endpoint both filters pass, or NOT_FOUND. */
  function Route(verb: string, uri: string): EndPoint
  {
    match FirstMatch(EndPoints, verb, uri)
    case None => NotFound
    case Some(k) => EndPoints[k]
  }

  /** The stream of handleRequest, evaluated: the GET endpoints in order, else NOT_FOUND. */
  lemma RouteIs(verb: string, uri: string)
    ensures Route(verb, uri) ==
      if Matches(Get, verb) && uri == EventsUri then EventSource
      else if Matches(Get, verb) && IsAsset(uri) then Asset
      else NotFound
  {
    assert !Accepts(EndPoints[0], verb, uri);
    assert Accepts(EndPoints[1], verb, uri) <==> Matches(Get, verb) && uri == EventsUri;
    assert Accepts(EndPoints[2], verb, uri) <==> Matches(Get, verb) && IsAsset(uri);
  }

  /**
   * Which endpoint a request reaches, stated without the stream. "/events"
   * is not a static asset, so the two GET endpoints never compete.
   */
  lemma RouteCases(verb: string, uri: string)
    ensures Route(verb, uri) == EventSource <==> Matches(Get, verb) && uri == EventsUri
    ensures Route(verb, uri) == Asset <==> Matches(Get, verb) && IsAsset(uri)
    ensures Route(verb, uri) == NotFound <==> !Matches(Get, verb) || (uri != EventsUri && !IsAsset(uri))
  {
    RouteIs(verb, uri);
  }

  predicate IsSseHeader(h: Header)
  {
    EqualsIgnoreCase("Accept", h.name) && h.value == "text/event-stream"
  }

  /** handle_sse's test: some header is named Accept, in any case, with the exact value text/event-stream. */
  function IsSse(headers: seq<Header>): (r: bool)
    ensures r <==> exists i :: 0 <= i < |headers| && IsSseHeader(headers[i])
  {
    if |headers| == 0 then false
    else if IsSseHeader(headers[0]) then true
    else
      var r := IsSse(headers[1..]);
      assert forall i :: 1 <= i < |headers| ==> headers[i] == headers[1..][i - 1];
      r
  }

  /** What handling a client connection ends in. */
  datatype Action = Respond404 | OpenStream | ServeAsset(asset: StaticAsset) | Close

  /**
   * handleRequest and the handlers: NOT_FOUND answers 404; EVENT_SOURCE
   * opens a stream for an event-stream request and answers 404 otherwise;
   * STATIC_ASSET serves the asset registered for the URI. A request without
   * a request line fails on its method, and the connection is closed.
   */
  function HandleRequest(request: Request): Action
  {
    match request.line
    case None => Close
    case Some(l) =>
      match Route(l.verb, l.uri)
      case NotFound => Respond404
      case EventSource => if IsSse(request.headers) then OpenStream else Respond404
      case Asset => ServeAsset(AssetFor(l.uri))
  }

  /** What each request leads to, in terms of the request alone. */
  lemma HandleRequestCases(request: Request)
    ensures HandleRequest(request) == Close <==> request.line.None?
    ensures HandleRequest(request) == OpenStream <==>
      request.line.Some? && Matches(Get, request.line.value.verb) &&
      request.line.value.uri == EventsUri && IsSse(request.headers)
    ensures HandleRequest(request).ServeAsset? <==>
      request.line.Some? && Matches(Get, request.line.value.verb) && IsAsset(request.line.value.uri)
    ensures HandleRequest(request).ServeAsset? ==>
      HandleRequest(request).asset == AssetFor(request.line.value.uri)
  {
    if request.line.Some? {
      RouteCases(request.line.value.verb, request.line.value.uri);
    }
  }

  /**
   * process_client: a request that fails to parse (read_request returned
   * null) or throws while parsing closes the connection; otherwise it is
   * routed.
   */
  function ClientAction(input: seq<Byte>): Action
  {
    match Parse(input)
    case Invalid => Close
    case Threw => Close
    case Parsed(request) => HandleRequest(request)
  }

  /** A well-formed request is routed on its own request line and headers. */
  lemma ClientActionOfRequestBytes(l: RequestLine, hs: seq<Header>, rest: seq<Byte>)
    requires IsWellFormedLine(l)
    requires forall i :: 0 <= i < |hs| ==> IsWellFormedHeader(hs[i])
    ensures ClientAction(RequestBytes(l, hs) + rest) == HandleRequest(Request(Some(l), hs))
  {
    ParseOfRequestBytes(l, hs, rest);
  }

  /** A GET of "/events" with an event-stream Accept header opens a stream. */
  lemma EventStreamRequestOpensStream(l: RequestLine, hs: seq<Header>, rest: seq<Byte>)
    requires IsWellFormedLine(l)
    requires forall i :: 0 <= i < |hs| ==> IsWellFormedHeader(hs[i])
    requires Matches(Get, l.verb) && l.uri == EventsUri
    requires exists i :: 0 <= i < |hs| && hs[i] == Header("Accept", "text/event-stream")
    ensures ClientAction(RequestBytes(l, hs) + rest) == OpenStream
  {
    ClientActionOfRequestBytes(l, hs, rest);
    var i :| 0 <= i < |hs| && hs[i] == Header("Accept", "text/event-stream");
    EqualsIgnoreCaseIsEquivalence("Accept", "Accept", "Accept");
    assert IsSse(hs);
    HandleRequestCases(Request(Some(l), hs));
  }

  /** The same request with any other Accept value is answered 404. */
  lemma EventSourceWithoutSseIs404(l: RequestLine, hs: seq<Header>)
    requires Matches(Get, l.verb) && l.uri == EventsUri
    requires forall i :: 0 <= i < |hs| ==> hs[i].value != "text/event-stream"
    ensures HandleRequest(Request(Some(l), hs)) == Respond404
  {
    RouteCases(l.verb, l.uri);
  }

  /** The canned 404 response, as the bytes of its text. */
  const NotFoundStatus: string := "HTTP/1.1 404 Not Found"
  const NotFoundBody: string := "Not Found"
  const NotFoundResponse: string :=
    NotFoundStatus + "\r\n" + "Content-Length:9" + "\r\n" + "Connection: close" + "\r\n" + "\r\n" + NotFoundBody

  /** The Content-Length of the 404 response is the length of its body. */
  lemma NotFoundLengthIsBodyLength()
    ensures NotFoundResponse[|NotFoundResponse| - |NotFoundBody|..] == NotFoundBody
    ensures |NotFoundBody| == 9
  {
  }

  /**
   * `List.remove(Object)`: drops the first occurrence of x, if any.
   */
  function RemoveFirst(s: seq<nat>, x: nat): (r: seq<nat>)
    ensures x in s ==> multiset(r) == multiset(s) - multiset{x}
    ensures x !in s ==> r == s
  {
    if |s| == 0 then s
    else
      assert s == [s[0]] + s[1..];
      if s[0] == x then s[1..] else [s[0]] + RemoveFirst(s[1..], x)
  }

  /** Ending a stream that was just added, and was not open before, restores the list. */
  lemma {:induction false} AddThenEnd(s: seq<nat>, x: nat)
    requires x !in s
    ensures RemoveFirst(s + [x], x) == s
  {
    if |s| > 0 {
      assert (s + [x])[1..] == s[1..] + [x];
      AddThenEnd(s[1..], x);
    }
  }

  /** The statistics table after a series of queue_stat_event calls. */
  function QueueAll(table: map<string, string>, events: seq<(string, string)>): map<string, string>
    decreases |events|
  {
    if |events| == 0 then table
    else QueueAll(table[events[0].0 := events[0].1], events[1..])
  }

  /** Event i sets name to value, and no later event names it. */
  predicate IsLastFor(events: seq<(string, string)>, i: int, name: string, value: string)
  {
    0 <= i < |events| && events[i] == (name, value) && forall j :: i < j < |events| ==> events[j].0 != name
  }

  /** The value of the last event for a name, if there is one. */
  function LastValue(events: seq<(string, string)>, name: string): (r: Option<string>)
    ensures r.None? <==> forall i :: 0 <= i < |events| ==> events[i].0 != name
    ensures r.Some? ==> exists i :: IsLastFor(events, i, name, r.value)
  {
    if |events| == 0 then None
    else
      var later := LastValue(events[1..], name);
      assert forall i :: 1 <= i < |events| ==> events[i] == events[1..][i - 1];
      if later.Some? then
        var k :| IsLastFor(events[1..], k, name, later.value);
        assert IsLastFor(events, k + 1, name, later.value);
        later
      else if events[0].0 == name then
        assert IsLastFor(events, 0, name, events[0].1);
        Some(events[0].1)
      else None
  }

  /** queue_stat_event keeps the latest value per name; names never queued keep their old value. */
  lemma {:induction false} LatestValueWins(table: map<string, string>, events: seq<(string, string)>, name: string)
    ensures LastValue(events, name).Some? ==>
      name in QueueAll(table, events) && QueueAll(table, events)[name] == LastValue(events, name).value
    ensures LastValue(events, name).None? ==>
      (name in QueueAll(table, events) <==> name in table) &&
      (name in table ==> QueueAll(table, events)[name] == table[name])
    decreases |events|
  {
    if |events| > 0 {
      LatestValueWins(table[events[0].0 := events[0].1], events[1..], name);
    }
  }

  /**
   * The server's state: the open event streams, each known by an
   * identity, and the latest value of every statistic.
   */
  class Server {
    var streams: seq<nat>
    var statEvents: map<string, string>

    constructor ()
      ensures streams == [] && statEvents == map[]
    {
      streams := [];
      statEvents := map[];
    }

    /** queue_stat_event: the name now maps to this value. */
    method QueueStatEvent(name: string, value: string)
      modifies this`statEvents
      ensures statEvents == old(statEvents)[name := value]
    {
      statEvents := statEvents[name := value];
    }

    /** add_stream. */
    method AddStream(stream: nat)
      modifies this`streams
      ensures streams == old(streams) + [stream]
    {
      streams := streams + [stream];
    }

    /** end_stream: the first occurrence of the stream leaves the list. */
    method EndStream(stream: nat)
      modifies this`streams
      ensures streams == RemoveFirst(old(streams), stream)
    {
      streams := RemoveFirst(streams, stream);
    }

    /**
     * process_client on one connection's bytes: an event-stream request
     * registers the new stream; nothing else changes the server.
     */
    method ProcessClient(input: seq<Byte>, stream: nat) returns (action: Action)
      modifies this`streams
      ensures action == ClientAction(input)
      ensures streams == if action == OpenStream then old(streams) + [stream] else old(streams)
    {
      var outcome := ReadRequest(input);
      match outcome
      case Invalid =>
        action := Close;
      case Threw =>
        action := Close;
      case Parsed(request) =>
        action := HandleRequest(request);
        if action == OpenStream {
          AddStream(stream);
        }
    }
  }
}
