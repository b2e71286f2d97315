/**
 * `record` and `handler`: the request-level flow. Configuration is loaded,
 * the request authenticated, the body decoded, non-flag changes skipped, and
 * a flag change posted to Datadog as an event; the caller always gets one
 * of three fixed messages unless configuration is missing.
 */
module Webhook {
  import opened Wrappers
  import opened Hex
  import opened Events
  import opened Signature

  /** The configuration `envy` reads from `LD_SECRET` and `DD_API_KEY`; the secret as its UTF-8 bytes. */
  datatype Env = Env(ldSecret: seq<byte>, ddApiKey: string)

  /** What `request.payload::<Payload>()` gives for a request: an error, no payload, or the payload. */
  datatype PayloadResult = PayloadError | NoPayload | Decoded(payload: Payload)

  /**
   * The parts of the incoming request the handler reads: the X-LD-Signature
   * header's value if there is one, the raw body bytes, and what decoding
   * that body yields.
   */
  datatype Request = Request(signature: Option<seq<byte>>, body: seq<byte>, payload: PayloadResult)

  /**
   * What the HTTP client's `send` returns: a response, whatever its status,
   * or an error whose reason the model does not keep; an error is only logged.
   */
  datatype SendResult = Delivered | SendError

  /** One HTTP POST with a JSON event as its body. */
  datatype Post = Post(url: string, event: DatadogEvent)

  /** What `record` did with a payload. */
  datatype Recorded = NotAFlag | Posted(result: SendResult) | IndexOutOfBounds

  /**
   * How `handler` ends: a JSON `{"message": ..}` response, the error that
   * missing configuration turns into, or a panic that leaves no response.
   */
  datatype Outcome = Responded(message: string) | ConfigError | Panicked

  /** The steps `handler` goes through. */
  datatype Stage = LoadConfig | Authenticate | Decode | FilterKind | Build | Publish

  /** The steps in the only order `handler` takes them; every run stops somewhere along it. */
  const Pipeline: seq<Stage> := [LoadConfig, Authenticate, Decode, FilterKind, Build, Publish]

  const NotAuthenticated: string := "Request not authenticated"
  const Acknowledged: string := "\U{1F44D}"
  const FailedToProcess: string := "Failed to process request"

  /** Datadog's event-ingestion endpoint, up to the API key query parameter. */
  const EventsEndpoint: string := "https://app.datadoghq.com/api/v1/events?api_key="

  /** The URL string `format!` builds for `record`'s post: the endpoint, then the key as it is. */
  function EventsUrl(apiKey: string): (url: string)
    ensures |url| == |EventsEndpoint| + |apiKey|
    ensures url[..|EventsEndpoint|] == EventsEndpoint && url[|EventsEndpoint|..] == apiKey
  {
    EventsEndpoint + apiKey
  }

  /** The kind of change `record` forwards. */
  const FlagKind: string := "flag"

  /** A flag change whose `accesses` is empty: `event` indexes `accesses[0]` and panics. */
  predicate PanicsInEvent(p: Payload) {
    p.kind == FlagKind && |p.accesses| == 0
  }

  /**
   * The posts `record` makes for a payload: at most one, made exactly for a
   * flag change it can build an event for, to the events URL, tagged as a
   * flag change, and carrying the event built from the payload.
   */
  function RecordedPosts(p: Payload, apiKey: string): (posts: seq<Post>)
    ensures |posts| <= 1
    ensures posts != [] <==> p.kind == FlagKind && |p.accesses| > 0
    ensures forall post <- posts :: post.url == EventsUrl(apiKey)
    ensures forall post <- posts :: TagValue(post.event.tags, "kind") == Some(FlagKind)
    ensures forall post <- posts :: |p.accesses| > 0 && post.event == Event(p)
  {
    if p.kind != FlagKind || |p.accesses| == 0 then []
    else
      EventTagsRecoverPayload(p);
      [Post(EventsUrl(apiKey), Event(p))]
  }

  /** The HTTP client, seen from outside: every POST it has sent. */
  class Client {
    ghost var sent: seq<Post>

    constructor ()
      ensures sent == []
    {
      sent := [];
    }

    /**
     * `post(url).json(event).send()`: the request goes out; `answer` is
     * whatever the network makes of it, which the model does not choose.
     */
    method Send(post: Post, answer: SendResult) returns (r: SendResult)
      modifies this
      ensures sent == old(sent) + [post]
      ensures r == answer
    {
      sent := sent + [post];
      r := answer;
    }
  }

  /**
   * `record`: a payload whose kind is not "flag" is dropped; otherwise its
   * event is posted once to the events URL, and a send error is only logged.
   * The indexing of `accesses[0]` happens before anything is sent.
   */
  method Record(client: Client, payload: Payload, ddApiKey: string, answer: SendResult)
    returns (r: Recorded, ghost stages: seq<Stage>)
    modifies client
    ensures client.sent == old(client.sent) + RecordedPosts(payload, ddApiKey)
    ensures r == NotAFlag <==> payload.kind != FlagKind
    ensures r == IndexOutOfBounds <==> PanicsInEvent(payload)
    ensures r.Posted? ==> r.result == answer
    ensures stages == Pipeline[3..if r == NotAFlag then 4 else if r == IndexOutOfBounds then 5 else 6]
  {
    stages := [FilterKind];
    if payload.kind != FlagKind {
      return NotAFlag, stages;
    }
    stages := stages + [Build];
    if |payload.accesses| == 0 {
      return IndexOutOfBounds, stages;
    }
    var event := Event(payload);
    stages := stages + [Publish];
    var sent := client.Send(Post(EventsUrl(ddApiKey), event), answer);
    r := Posted(sent);
  }

  /** Whether the request passes `authenticated` under the configured secret. */
  predicate Genuine(hmac: Mac, env: Env, request: Request) {
    Authenticated(hmac, request.signature, request.body, env.ldSecret)
  }

  /**
   * `handler`: missing configuration is an error before anything else; an
   * unauthenticated request is answered without decoding its body; a decoded
   * payload goes through `record` and is acknowledged whatever the send did;
   * anything else is "Failed to process request".
   */
  method Handler(client: Client, env: Option<Env>, request: Request, hmac: Mac, answer: SendResult)
    returns (o: Outcome, ghost stages: seq<Stage>)
    modifies client
    ensures stages <= Pipeline
    ensures o.Responded? ==> o.message in {NotAuthenticated, Acknowledged, FailedToProcess}
    ensures env.None? ==>
      o == ConfigError && stages == [LoadConfig] && client.sent == old(client.sent)
    ensures env.Some? && !Genuine(hmac, env.value, request) ==>
      o == Responded(NotAuthenticated) && Decode !in stages && client.sent == old(client.sent)
    ensures env.Some? && Genuine(hmac, env.value, request) ==> Decode in stages
    ensures env.Some? && Genuine(hmac, env.value, request) && !request.payload.Decoded? ==>
      o == Responded(FailedToProcess) && FilterKind !in stages && client.sent == old(client.sent)
    ensures env.Some? && Genuine(hmac, env.value, request) && request.payload.Decoded? ==>
      var p := request.payload.payload;
      client.sent == old(client.sent) + RecordedPosts(p, env.value.ddApiKey) &&
      o == (if PanicsInEvent(p) then Panicked else Responded(Acknowledged))
  {
    stages := [LoadConfig];
    if env.None? {
      return ConfigError, stages;
    }
    var Env(ldSecret, ddApiKey) := env.value;
    stages := stages + [Authenticate];
    if !Authenticated(hmac, request.signature, request.body, ldSecret) {
      return Responded(NotAuthenticated), stages;
    }
    stages := stages + [Decode];
    if request.payload.Decoded? {
      var recorded;
      ghost var recordStages;
      recorded, recordStages := Record(client, request.payload.payload, ddApiKey, answer);
      stages := stages + recordStages;
      if recorded == IndexOutOfBounds {
        return Panicked, stages;
      }
      return Responded(Acknowledged), stages;
    }
    o := Responded(FailedToProcess);
  }
}
