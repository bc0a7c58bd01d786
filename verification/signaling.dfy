/** The signaling step of `publish` in both clients: the offer request (URL,
    basic-auth credentials, JSON body) and what is done with the HTTP answer.
    The HTTP call and JSON decoding themselves are inputs: the response
    arrives as a status and an already decoded body. */
module Signaling {
  import opened Wrappers

  /** A local or remote session description: SDP text and its type. */
  datatype SessionDescription = SessionDescription(sdp: string, descType: string)

  datatype Credentials = BasicAuth(login: string, password: string)

  /** Python truthiness of an optional command-line string: present and
      non-empty. */
  predicate Truthy(s: Option<string>) {
    s.Some? && s.value != ""
  }

  /** The JSON object posted to the signaling server, as key to string value. */
  type Payload = map<string, string>

  const SdpKey := "sdp"
  const TypeKey := "type"
  const ModelIdKey := "modelId"

  /** Status on which cam_client.py applies the answer. */
  const StatusOk := 200

  /** Exit status of `exit(-1)`. */
  const ExitFailure := -1

  /** Credentials are sent only when both user name and password are truthy. */
  function AuthFor(username: Option<string>, password: Option<string>): (auth: Option<Credentials>)
    ensures auth.Some? <==> Truthy(username) && Truthy(password)
    ensures auth.Some? ==> auth.value == BasicAuth(username.value, password.value)
  {
    if Truthy(username) && Truthy(password) then Some(BasicAuth(username.value, password.value)) else None
  }

  /** The body of the offer: the local description, plus the model identifier
      when one is given. */
  function OfferPayload(local: SessionDescription, modelId: Option<string>): (p: Payload)
    ensures p.Keys == {SdpKey, TypeKey} + (if Truthy(modelId) then {ModelIdKey} else {})
    ensures ModelIdKey in p <==> Truthy(modelId)
  {
    var base := map[SdpKey := local.sdp, TypeKey := local.descType];
    if Truthy(modelId) then base[ModelIdKey := modelId.value] else base
  }

  /** What a receiver reads back from an offer body. */
  datatype Offer = Offer(description: SessionDescription, modelId: Option<string>)

  function ReadOffer(p: Payload): Option<Offer> {
    if SdpKey in p && TypeKey in p then
      Some(Offer(SessionDescription(p[SdpKey], p[TypeKey]),
                 if ModelIdKey in p then Some(p[ModelIdKey]) else None))
    else None
  }

  /** The body carries the local description unchanged, and the model
      identifier exactly when it is truthy. */
  lemma OfferPayloadRoundTrip(local: SessionDescription, modelId: Option<string>)
    ensures ReadOffer(OfferPayload(local, modelId))
            == Some(Offer(local, if Truthy(modelId) then modelId else None))
  {
  }

  datatype Request = Request(url: string, auth: Option<Credentials>, payload: Payload)

  /** The arguments `CamClient.publish` reads for signaling. */
  datatype ClientArgs = ClientArgs(url: string, username: Option<string>, password: Option<string>, modelId: Option<string>)

  /** The offer request of `CamClient.publish`: posted to the URL as given,
      with optional credentials and model identifier. */
  function ClientOffer(args: ClientArgs, local: SessionDescription): (req: Request)
    ensures req.url == args.url
    ensures req.auth.Some? <==> Truthy(args.username) && Truthy(args.password)
    ensures req.auth == AuthFor(args.username, args.password)
    ensures ReadOffer(req.payload) == Some(Offer(local, if Truthy(args.modelId) then args.modelId else None))
    ensures |req.payload| == if Truthy(args.modelId) then 3 else 2
  {
    OfferPayloadRoundTrip(local, args.modelId);
    var payload := OfferPayload(local, args.modelId);
    assert |{SdpKey, TypeKey}| == 2;
    assert |{SdpKey, TypeKey, ModelIdKey}| == 3;
    Request(args.url, AuthFor(args.username, args.password), payload)
  }

  /** The standalone client posts to the URL with the key appended. */
  function StandaloneOfferUrl(url: string, key: string): (r: string)
    ensures url <= r && r[|url|..] == key
    ensures key == "" ==> r == url
  {
    url + key
  }

  /** The offer request of the standalone client: no credentials and a body
      of exactly the two description fields. */
  function StandaloneOffer(url: string, key: string, local: SessionDescription): (req: Request)
    ensures req.url == StandaloneOfferUrl(url, key)
    ensures req.auth.None?
    ensures req.payload.Keys == {SdpKey, TypeKey}
    ensures ReadOffer(req.payload) == Some(Offer(local, None))
  {
    OfferPayloadRoundTrip(local, None);
    Request(StandaloneOfferUrl(url, key), None, OfferPayload(local, None))
  }

  /** What the POST produced: a connection failure, or a response whose body
      either decodes to an answer (`sdp` and `type`) or does not. */
  datatype HttpOutcome =
    | ConnectorError(strerror: string)
    | Response(status: int, reason: string, answer: Option<SessionDescription>)

  /** How publishing ends when no answer is applied: the process exits with a
      status, or decoding the body raises out of `publish`. */
  datatype PublishError = Exit(code: int) | BodyNotAnAnswer

  /** cam_client.py: the answer is applied only on status 200; any other
      status or a connector error exits. */
  function ClientAnswer(response: HttpOutcome): (r: Result<SessionDescription, PublishError>)
    ensures r.Success? <==> response.Response? && response.status == StatusOk && response.answer.Some?
    ensures r.Success? ==> r.value == response.answer.value
    ensures response.ConnectorError? ==> r == Failure(Exit(ExitFailure))
    ensures response.Response? && response.status != StatusOk ==> r == Failure(Exit(ExitFailure))
    ensures response.Response? && response.status == StatusOk && response.answer.None? ==>
              r == Failure(BodyNotAnAnswer)
  {
    match response
    case ConnectorError(_) => Failure(Exit(ExitFailure))
    case Response(status, _, answer) =>
      if status == StatusOk then
        match answer
        case Some(a) => Success(a)
        case None => Failure(BodyNotAnAnswer)
      else Failure(Exit(ExitFailure))
  }

  /** cam-client.py: the body is decoded and applied whatever the status;
      only a connector error exits. */
  function StandaloneAnswer(response: HttpOutcome): (r: Result<SessionDescription, PublishError>)
    ensures r.Success? <==> response.Response? && response.answer.Some?
    ensures r.Success? ==> r.value == response.answer.value
    ensures r == Failure(Exit(ExitFailure)) <==> response.ConnectorError?
    ensures response.Response? && response.answer.None? ==> r == Failure(BodyNotAnAnswer)
  {
    match response
    case ConnectorError(_) => Failure(Exit(ExitFailure))
    case Response(_, _, answer) =>
      match answer
      case Some(a) => Success(a)
      case None => Failure(BodyNotAnAnswer)
  }

  /** The two clients agree exactly on connector errors and status 200: on
      any other status the module client exits, while the standalone client
      applies the answer or raises on a body that is not one. */
  lemma AnswerHandlingDiffersOnlyOnStatus(response: HttpOutcome)
    ensures ClientAnswer(response) != StandaloneAnswer(response)
            <==> response.Response? && response.status != StatusOk
    ensures response.Response? && response.status != StatusOk && response.answer.Some? ==>
              StandaloneAnswer(response).Success? && ClientAnswer(response).Failure?
  {
  }
}
