/**
  Response normalisation: `responseHandler` (lib/index.js:132-152) turns what
  the HTTP transport reports into the arguments of the caller's callback.
  The transport and `JSON.parse` are not modelled: the outcome is an input and
  the parser is a parameter (`None` where `JSON.parse` would throw).
*/
module Responses {
  import opened Wrappers
  import opened Js

  /** A network-level failure reported by the transport. */
  datatype TransportError = TransportError(message: string)

  /** A received response; header names as the transport reports them (lower-case). */
  datatype HttpResponse = HttpResponse(statusCode: int, headers: map<string, string>, body: string)

  /**
    What the transport hands to the handler: an error and no response, or a
    response (possibly alongside an error).
  */
  datatype Outcome =
    | NoResponse(cause: TransportError)
    | Responded(error: Option<TransportError>, response: HttpResponse)

  /** The error passed to the callback. */
  datatype PurgeError =
    | Transport(cause: TransportError)
    | Status(message: string, statusCode: int)

  /** The result passed to the callback on success. */
  datatype Payload<V> = Parsed(value: V) | Raw(body: string)

  /** The arguments a callback is invoked with: `()`, `(err)` or `(null, result)`. */
  datatype CallbackArgs<V> = NoArgs | Failure(error: PurgeError) | Success(result: Payload<V>)

  const EMPTY_RESPONSE_BODY: string := "Empty response body"

  /** The content-type header is exactly `application/json` (no parameters, no case folding). */
  predicate DeclaresJson(response: HttpResponse) {
    "content-type" in response.headers && response.headers["content-type"] == APPLICATION_JSON
  }

  /**
    A non-200 status always fails with that status (the message is the body,
    or the fallback when the body is empty), replacing any transport error; a
    transport error otherwise fails unchanged; a 200 response always succeeds,
    with the parsed body when it declares JSON and parses, else the raw body.
  */
  function ResponseHandler<V>(outcome: Outcome, parse: string -> Option<V>): (r: CallbackArgs<V>)
    ensures !r.NoArgs?
    ensures outcome.NoResponse? ==> r == Failure(Transport(outcome.cause))
    ensures outcome.Responded? && outcome.response.statusCode != 200 ==>
      r == Failure(Status(
        if outcome.response.body == "" then EMPTY_RESPONSE_BODY else outcome.response.body,
        outcome.response.statusCode))
    ensures outcome.Responded? && outcome.response.statusCode == 200 ==>
      (r.Failure? <==> outcome.error.Some?) &&
      (r.Failure? ==> r.error == Transport(outcome.error.value))
    ensures r.Success? ==> outcome.Responded? && outcome.response.statusCode == 200
    ensures r.Success? && r.result.Raw? ==> r.result.body == outcome.response.body
    ensures r.Success? && r.result.Parsed? ==>
      DeclaresJson(outcome.response) && parse(outcome.response.body) == Some(r.result.value)
    ensures r.Success? && parse(outcome.response.body).Some? && DeclaresJson(outcome.response) ==>
      r.result.Parsed?
  {
    match outcome
    case NoResponse(err) => Failure(Transport(err))
    case Responded(err, response) =>
      if response.statusCode != 200 then
        Failure(Status(if response.body == "" then EMPTY_RESPONSE_BODY else response.body, response.statusCode))
      else if err.Some? then
        Failure(Transport(err.value))
      else if DeclaresJson(response) then
        match parse(response.body)
        case Some(value) => Success(Parsed(value))
        case None => Success(Raw(response.body))
      else
        Success(Raw(response.body))
  }

  /** A 200 response declaring JSON whose body does not parse is delivered raw, not as an error. */
  lemma MalformedJsonIsDeliveredRaw<V>(response: HttpResponse, parse: string -> Option<V>)
    requires response.statusCode == 200 && DeclaresJson(response)
    requires parse(response.body) == None
    ensures ResponseHandler(Responded(None, response), parse) == Success(Raw(response.body))
  {
  }

  /**
    Any other content type, `application/json; charset=utf-8` included, is
    delivered raw even when the body would parse.
  */
  lemma OtherContentTypeIsDeliveredRaw<V>(response: HttpResponse, parse: string -> Option<V>)
    requires response.statusCode == 200 && !DeclaresJson(response)
    ensures ResponseHandler(Responded(None, response), parse) == Success(Raw(response.body))
  {
  }

  /**
    Round trip: whatever a serialiser writes and the parser reads back is
    delivered as the parsed value of a 200 JSON response.
  */
  lemma JsonPayloadRoundTrip<V>(serialize: V -> string, parse: string -> Option<V>, v: V)
    requires parse(serialize(v)) == Some(v)
    ensures ResponseHandler(Responded(None, HttpResponse(200, map["content-type" := APPLICATION_JSON], serialize(v))), parse)
         == Success(Parsed(v))
  {
  }
}
