/**
 The `Usertune` client of src/client/index.ts as a pure transition system. A client
 is its workspace and the one mutable field `currentVariantId`; each operation takes
 the client, its arguments and the transport's reply, and yields the request it
 issued (if any), the next client and what the call returns or throws.
 */
module Usertune {
  import opened Wrappers
  import opened Values
  import Attributes

  /** Construction options. Only the workspace has an effect on the client logic;
      the rest are handed to the HTTP transport. */
  datatype Config = Config(
    workspace: string,
    accessToken: Option<string>,
    baseUrl: Option<string>,
    timeout: Option<Number>,
    debug: Option<bool>)

  /** The client's state: its workspace, and the variant returned by the last
      successful `content` call (`null` before the first one). */
  datatype Client = Client(workspace: string, currentVariantId: Option<string>)

  /** What the client throws. `Transport` is an error raised by `http.get`, passed on unchanged. */
  datatype Error =
    | WorkspaceRequired
    | ContentSlugRequired
    | ConversionTypeRequired
    | NoVariantId
    | Transport(reason: string)

  /** The message each thrown `Error` carries. */
  function Message(e: Error): string {
    match e
    case WorkspaceRequired => "Workspace is required"
    case ContentSlugRequired => "Content slug is required"
    case ConversionTypeRequired => "Conversion type is required"
    case NoVariantId =>
      "No variant_id available. You must call content() first to get a variant_id before tracking."
    case Transport(reason) => reason
  }

  /** Response metadata: the variant chosen (null when there is no personalisation),
      a timestamp, and any further fields, carried opaquely. */
  datatype Metadata = Metadata(variantId: Option<string>, timestamp: string, extra: Props)

  datatype ContentResponse = ContentResponse(data: Props, metadata: Metadata)

  datatype TrackingResponse = TrackingResponse(success: bool, message: Option<string>, extra: Props)

  /** What `http.get` settles with: the response body, or the error it rejects with. */
  datatype Reply<T> = Delivered(body: T) | Failed(reason: string)

  /** One call `http.get(url, { params })`. */
  datatype Request = HttpGet(url: string, params: Props)

  /** The effect of one operation: the request issued, the client afterwards, and
      the call's value or thrown error. */
  datatype Step<T> = Step(sent: Option<Request>, client: Client, result: Result<T, Error>)

  /** JavaScript truthiness of a `string | null`: neither null nor "". */
  predicate IsTruthy(s: Option<string>) {
    s.Some? && s.value != ""
  }

  /** The `track` precondition: a variant is stored. */
  predicate HasVariant(c: Client) {
    IsTruthy(c.currentVariantId)
  }

  /** `new Usertune(config)`: a client with no variant, or the workspace error. */
  function New(config: Config): (r: Result<Client, Error>)
    ensures r.Failure? <==> config.workspace == ""
    ensures r.Failure? ==> r.error == WorkspaceRequired
    ensures r.Success? ==> r.value == Client(config.workspace, None)
  {
    if config.workspace == "" then Failure(WorkspaceRequired)
    else Success(Client(config.workspace, None))
  }

  /** Only the workspace decides construction: a missing access token, base URL,
      timeout or debug flag is never an error. */
  lemma ConstructionIgnoresOptions(c1: Config, c2: Config)
    requires c1.workspace == c2.workspace
    ensures New(c1) == New(c2)
  {
  }

  /** The content endpoint, by string interpolation (no escaping). */
  function ContentUrl(workspace: string, slug: string): string {
    "/v1/workspace/" + workspace + "/" + slug + "/"
  }

  /** The tracking endpoint. */
  function TrackUrl(workspace: string): string {
    "/v1/workspace/" + workspace + "/track/"
  }

  /** Within one workspace, the content URL determines the slug it was built from. */
  lemma ContentUrlDeterminesSlug(workspace: string, s1: string, s2: string)
    requires ContentUrl(workspace, s1) == ContentUrl(workspace, s2)
    ensures s1 == s2
  {
    var p := "/v1/workspace/" + workspace + "/";
    assert ContentUrl(workspace, s1) == p + s1 + "/";
    assert ContentUrl(workspace, s2) == p + s2 + "/";
    assert |s1| == |s2|;
    forall i | 0 <= i < |s1|
      ensures s1[i] == s2[i]
    {
      assert ContentUrl(workspace, s1)[|p| + i] == s1[i];
      assert ContentUrl(workspace, s2)[|p| + i] == s2[i];
    }
  }

  /** Since the slug is interpolated unescaped, the slug "track" addresses the
      tracking endpoint. */
  lemma TrackSlugAddressesTrackEndpoint(workspace: string)
    ensures ContentUrl(workspace, "track") == TrackUrl(workspace)
  {
  }

  /** `content(contentSlug, attributes)`. */
  function Content(c: Client, slug: string, attributes: Option<Props>, reply: Reply<ContentResponse>)
    : (r: Step<ContentResponse>)
    ensures slug == "" ==> r == Step(None, c, Failure(ContentSlugRequired))
    ensures slug != "" ==>
      r.sent == Some(HttpGet(ContentUrl(c.workspace, slug), Attributes.FilterAttributes(attributes)))
    ensures r.client.workspace == c.workspace
    ensures r.result.Success? <==> slug != "" && reply.Delivered?
    ensures r.result.Success? ==>
      r.result.value == reply.body && r.client.currentVariantId == reply.body.metadata.variantId
    ensures r.result.Failure? ==> r.client == c
    ensures slug != "" && reply.Failed? ==> r.result == Failure(Transport(reply.reason))
  {
    if slug == "" then Step(None, c, Failure(ContentSlugRequired))
    else
      var request := HttpGet(ContentUrl(c.workspace, slug), Attributes.FilterAttributes(attributes));
      match reply
      case Failed(reason) => Step(Some(request), c, Failure(Transport(reason)))
      case Delivered(response) =>
        Step(Some(request), c.(currentVariantId := response.metadata.variantId), Success(response))
  }

  /** The query parameters of a tracking request, in the order the code builds them. */
  function TrackParams(conversionType: string, variantId: string, conversionValue: Option<Number>): Props {
    [("conversion_type", Str(conversionType)), ("variant_id", Str(variantId))]
      + (if conversionValue.Some? then [("conversion_value", Num(conversionValue.value))] else [])
  }

  /** The tracking parameters carry the conversion type and variant as given, and
      hold a `conversion_value` key exactly when a value was supplied. */
  lemma TrackParamsShape(conversionType: string, variantId: string, conversionValue: Option<Number>)
    ensures var p := TrackParams(conversionType, variantId, conversionValue);
      && DistinctKeys(p)
      && Get(p, "conversion_type") == Some(Str(conversionType))
      && Get(p, "variant_id") == Some(Str(variantId))
      && (HasKey(p, "conversion_value") <==> conversionValue.Some?)
      && (conversionValue.Some? ==> Get(p, "conversion_value") == Some(Num(conversionValue.value)))
      && (forall k :: HasKey(p, k) ==> k in {"conversion_type", "variant_id", "conversion_value"})
  {
    var p := TrackParams(conversionType, variantId, conversionValue);
    assert p[0].0 == "conversion_type" && p[1].0 == "variant_id";
    if conversionValue.None? {
      assert |p| == 2;
      assert !HasKey(p, "conversion_value");
    } else {
      assert p[2] == ("conversion_value", Num(conversionValue.value));
    }
  }

  /** `track(conversionType, conversionValue)`: never changes the client. */
  function Track(c: Client, conversionType: string, conversionValue: Option<Number>, reply: Reply<TrackingResponse>)
    : (r: Step<TrackingResponse>)
    ensures r.client == c
    ensures conversionType == "" ==> r.sent == None && r.result == Failure(ConversionTypeRequired)
    ensures conversionType != "" && !HasVariant(c) ==> r.sent == None && r.result == Failure(NoVariantId)
    ensures r.sent.Some? <==> conversionType != "" && HasVariant(c)
    ensures r.sent.Some? ==>
      r.sent.value == HttpGet(TrackUrl(c.workspace), TrackParams(conversionType, c.currentVariantId.value, conversionValue))
    ensures r.sent.Some? ==>
      r.result == (match reply case Delivered(body) => Success(body) case Failed(reason) => Failure(Transport(reason)))
  {
    if conversionType == "" then Step(None, c, Failure(ConversionTypeRequired))
    else if !HasVariant(c) then Step(None, c, Failure(NoVariantId))
    else
      var request := HttpGet(TrackUrl(c.workspace), TrackParams(conversionType, c.currentVariantId.value, conversionValue));
      match reply
      case Failed(reason) => Step(Some(request), c, Failure(Transport(reason)))
      case Delivered(response) => Step(Some(request), c, Success(response))
  }

  /** The conversion-type check comes first: an empty type is reported even when no
      variant is stored. */
  lemma ConversionTypeCheckedFirst(c: Client, conversionValue: Option<Number>, reply: Reply<TrackingResponse>)
    requires !HasVariant(c)
    ensures Track(c, "", conversionValue, reply).result == Failure(ConversionTypeRequired)
  {
  }

  /** The returned tracker, `(type, value) => this.track(type, value)`. It closes over
      the client itself, not over the variant current when it was made. */
  datatype Tracker = ForwardToTrack

  datatype ContentAndTracker = ContentAndTracker(content: ContentResponse, track: Tracker)

  /** `contentWithTracker(contentSlug, attributes)`: one `content` call, whose request,
      state change and errors it shares, paired with a tracker. */
  function ContentWithTracker(c: Client, slug: string, attributes: Option<Props>, reply: Reply<ContentResponse>)
    : (r: Step<ContentAndTracker>)
    ensures var inner := Content(c, slug, attributes, reply);
      && r.sent == inner.sent
      && r.client == inner.client
      && (r.result.Success? <==> inner.result.Success?)
      && (r.result.Success? ==> r.result.value.content == inner.result.value)
      && (r.result.Failure? ==> r.result.error == inner.result.error)
  {
    var inner := Content(c, slug, attributes, reply);
    match inner.result
    case Success(response) => Step(inner.sent, inner.client, Success(ContentAndTracker(response, ForwardToTrack)))
    case Failure(e) => Step(inner.sent, inner.client, Failure(e))
  }

  /** Calling a tracker: `track` on the client as it is at the time of the call. */
  function InvokeTracker(t: Tracker, c: Client, conversionType: string, conversionValue: Option<Number>,
                         reply: Reply<TrackingResponse>): Step<TrackingResponse>
  {
    match t
    case ForwardToTrack => Track(c, conversionType, conversionValue, reply)
  }
}
