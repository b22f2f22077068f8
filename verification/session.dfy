/**
 A client together with the log of requests it has handed to `http.get` (the list a
 recording transport keeps), driven by a sequence of calls. Each call carries the
 reply the transport gives it, so a sequence of calls is one complete history.
 */
module Session {
  import opened Wrappers
  import opened Values
  import opened Usertune

  datatype State = State(client: Client, log: seq<Request>)

  /** One call on the client, with the transport's reply to the request it may issue. */
  datatype Call =
    | ContentCall(slug: string, attributes: Option<Props>, contentReply: Reply<ContentResponse>)
    | TrackCall(conversionType: string, conversionValue: Option<Number>, trackReply: Reply<TrackingResponse>)
    | ContentWithTrackerCall(slug: string, attributes: Option<Props>, contentReply: Reply<ContentResponse>)
    | TrackerCall(tracker: Tracker, conversionType: string, conversionValue: Option<Number>,
                  trackReply: Reply<TrackingResponse>)

  /** What a call returns when it does not throw. */
  datatype Answer =
    | ContentAnswer(content: ContentResponse)
    | TrackingAnswer(tracking: TrackingResponse)
    | TrackerAnswer(withTracker: ContentAndTracker)

  /** The call threw before reaching the transport: a validation or precondition error. */
  predicate Rejected(result: Result<Answer, Error>) {
    result.Failure? && !result.error.Transport?
  }

  function Issued(sent: Option<Request>): seq<Request> {
    if sent.Some? then [sent.value] else []
  }

  function Wrap<T>(result: Result<T, Error>, answer: T -> Answer): Result<Answer, Error> {
    match result
    case Success(v) => Success(answer(v))
    case Failure(e) => Failure(e)
  }

  /** Performs one call. A call rejected by validation changes nothing; every other
      call issues exactly one request. Only content calls change the client. */
  function Apply(s: State, call: Call): (r: (State, Result<Answer, Error>))
    ensures Rejected(r.1) ==> r.0 == s
    ensures !Rejected(r.1) ==> |r.0.log| == |s.log| + 1 && r.0.log[..|s.log|] == s.log
    ensures r.0.client.workspace == s.client.workspace
    ensures (call.TrackCall? || call.TrackerCall?) ==> r.0.client == s.client
  {
    match call
    case ContentCall(slug, attributes, reply) =>
      var step := Content(s.client, slug, attributes, reply);
      (State(step.client, s.log + Issued(step.sent)), Wrap(step.result, v => ContentAnswer(v)))
    case TrackCall(conversionType, conversionValue, reply) =>
      var step := Track(s.client, conversionType, conversionValue, reply);
      (State(step.client, s.log + Issued(step.sent)), Wrap(step.result, v => TrackingAnswer(v)))
    case ContentWithTrackerCall(slug, attributes, reply) =>
      var step := ContentWithTracker(s.client, slug, attributes, reply);
      (State(step.client, s.log + Issued(step.sent)), Wrap(step.result, v => TrackerAnswer(v)))
    case TrackerCall(tracker, conversionType, conversionValue, reply) =>
      var step := InvokeTracker(tracker, s.client, conversionType, conversionValue, reply);
      (State(step.client, s.log + Issued(step.sent)), Wrap(step.result, v => TrackingAnswer(v)))
  }

  /** Performs the calls in order. The log only grows and the workspace never changes. */
  function Run(s: State, calls: seq<Call>): (r: State)
    ensures |s.log| <= |r.log| && r.log[..|s.log|] == s.log
    ensures r.client.workspace == s.client.workspace
    decreases |calls|
  {
    if calls == [] then s else Run(Apply(s, calls[0]).0, calls[1..])
  }

  /** Running one more call is applying it to the state the earlier calls reached. */
  lemma {:induction false} RunAppend(s: State, calls: seq<Call>, call: Call)
    ensures Run(s, calls + [call]) == Apply(Run(s, calls), call).0
    decreases |calls|
  {
    if calls == [] {
      assert ([] + [call])[1..] == [];
    } else {
      assert (calls + [call])[1..] == calls[1..] + [call];
      RunAppend(Apply(s, calls[0]).0, calls[1..], call);
    }
  }

  /** The variant a call stores, when it is a content call that succeeds. */
  function StoredVariant(call: Call): Option<Option<string>> {
    if (call.ContentCall? || call.ContentWithTrackerCall?) && call.slug != "" && call.contentReply.Delivered? then
      Some(call.contentReply.body.metadata.variantId)
    else None
  }

  /** Last write wins: the variant delivered by the last successful content call, or
      `initial` when no call in `calls` delivered one. */
  function LastDeliveredVariant(calls: seq<Call>, initial: Option<string>): Option<string>
    decreases |calls|
  {
    if calls == [] then initial
    else
      match StoredVariant(calls[|calls| - 1])
      case Some(v) => v
      case None => LastDeliveredVariant(calls[..|calls| - 1], initial)
  }

  /** After any run, the stored variant is the one the last successful content call
      delivered, null included; track calls and failed calls leave it alone. */
  lemma {:induction false} RunStoresLastDeliveredVariant(s: State, calls: seq<Call>)
    ensures Run(s, calls).client.currentVariantId == LastDeliveredVariant(calls, s.client.currentVariantId)
    decreases |calls|
  {
    if calls != [] {
      var front, last := calls[..|calls| - 1], calls[|calls| - 1];
      assert calls == front + [last];
      RunAppend(s, front, last);
      RunStoresLastDeliveredVariant(s, front);
    }
  }

  /** `contentWithTracker` issues exactly one request, the content request, when its
      slug is given, and none otherwise. */
  lemma ContentWithTrackerIssuesOneRequest(s: State, slug: string, attributes: Option<Props>,
                                          reply: Reply<ContentResponse>)
    ensures var s' := Apply(s, ContentWithTrackerCall(slug, attributes, reply)).0;
      && (slug != "" ==> s'.log == s.log + [HttpGet(ContentUrl(s.client.workspace, slug),
                                                    Attributes.FilterAttributes(attributes))])
      && (slug == "" ==> s'.log == s.log)
  {
  }

  /** The tracker reads the variant when it is called, not when it was made: after
      `contentWithTracker` and any further calls, the tracker's single request carries
      the variant of the last successful content call. */
  lemma {:induction false} TrackerUsesVariantAtCallTime(
    s: State, slug: string, attributes: Option<Props>, reply: Reply<ContentResponse>,
    between: seq<Call>, conversionType: string, conversionValue: Option<Number>,
    trackReply: Reply<TrackingResponse>)
    requires slug != "" && reply.Delivered?
    requires conversionType != ""
    requires IsTruthy(LastDeliveredVariant(between, reply.body.metadata.variantId))
    ensures
      var made := Apply(s, ContentWithTrackerCall(slug, attributes, reply));
      made.1.Success? &&
      var later := Run(made.0, between);
      var used := Apply(later, TrackerCall(made.1.value.withTracker.track, conversionType, conversionValue, trackReply)).0;
      used.log == later.log + [HttpGet(TrackUrl(s.client.workspace),
          TrackParams(conversionType, LastDeliveredVariant(between, reply.body.metadata.variantId).value, conversionValue))]
  {
    var made := Apply(s, ContentWithTrackerCall(slug, attributes, reply));
    assert made.0.client.currentVariantId == reply.body.metadata.variantId;
    RunStoresLastDeliveredVariant(made.0, between);
  }

  /** The end-to-end flow: `content` followed by `track` issues exactly two requests,
      and the second carries the variant the first one delivered. */
  lemma {:induction false} ContentThenTrack(s: State, slug: string, attributes: Option<Props>,
                                           response: ContentResponse, conversionType: string,
                                           conversionValue: Option<Number>, trackReply: Reply<TrackingResponse>)
    requires slug != "" && conversionType != ""
    requires IsTruthy(response.metadata.variantId)
    ensures
      var calls := [ContentCall(slug, attributes, Delivered(response)),
                    TrackCall(conversionType, conversionValue, trackReply)];
      Run(s, calls).log == s.log +
        [HttpGet(ContentUrl(s.client.workspace, slug), Attributes.FilterAttributes(attributes)),
         HttpGet(TrackUrl(s.client.workspace),
                 TrackParams(conversionType, response.metadata.variantId.value, conversionValue))]
  {
    var c1 := ContentCall(slug, attributes, Delivered(response));
    var c2 := TrackCall(conversionType, conversionValue, trackReply);
    assert [c1, c2][1..] == [c2];
    var s1 := Apply(s, c1).0;
    assert Run(s, [c1, c2]) == Run(s1, [c2]);
    assert Run(s1, [c2]) == Apply(s1, c2).0;
  }

  /** Content that comes back without a usable variant (null, or the empty string,
      which is falsy) leaves nothing to track: the next `track` throws the
      precondition error and issues no request. */
  lemma NullVariantBlocksTracking(s: State, slug: string, attributes: Option<Props>, response: ContentResponse,
                                  conversionType: string, conversionValue: Option<Number>,
                                  trackReply: Reply<TrackingResponse>)
    requires slug != "" && conversionType != ""
    requires !IsTruthy(response.metadata.variantId)
    ensures
      var s1 := Apply(s, ContentCall(slug, attributes, Delivered(response))).0;
      var r := Apply(s1, TrackCall(conversionType, conversionValue, trackReply));
      r.1 == Failure(NoVariantId) && r.0.log == s1.log && |s1.log| == |s.log| + 1
  {
  }
}
