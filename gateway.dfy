/**
 * How the two payment gateways' HTTP responses are turned into a value for the
 * caller's decoder or into an `ApiError::Payments` message
 * (`make_paypal_request` and `make_tremendous_request`). Sending the request
 * is left to the network: a response arrives here as `None` (sending failed)
 * or as a status with a body that either parsed as JSON or did not.
 */
module Gateway {
  import opened Wrappers

  /** A parsed JSON value (serde_json's `Value`). An object has unique keys. */
  datatype Json =
    | JNull
    | JBool(b: bool)
    | JNumber(n: real)
    | JString(s: string)
    | JArray(items: seq<Json>)
    | JObject(fields: map<string, Json>)

  /** The errors this core produces: `ApiError::Payments` with its message,
      and the error of a body that does not decode into the expected type. */
  datatype ApiError = Payments(message: string) | JsonError

  /** What came back: the HTTP status and the body, `None` when the body is
      not JSON. */
  datatype HttpResponse = HttpResponse(status: int, body: Option<Json>)

  /** reqwest's `StatusCode::is_success`: the 2xx range. */
  predicate IsSuccess(status: int)
  {
    200 <= status <= 299
  }

  /** serde's derived deserializer for a struct of two `String` fields read
      from a `Value`: an object that has both fields as strings (other
      fields are ignored), or an array of exactly two strings taken in
      field order. */
  function DecodeStringPair(v: Json, first: string, second: string): Option<(string, string)>
  {
    match v
    case JObject(m) =>
      if first in m && second in m && m[first].JString? && m[second].JString?
      then Some((m[first].s, m[second].s))
      else None
    case JArray(items) =>
      if |items| == 2 && items[0].JString? && items[1].JString?
      then Some((items[0].s, items[1].s))
      else None
    case _ => None
  }

  /** The same deserializer for a struct with the one field `message`. */
  function DecodeMessage(v: Json): Option<string>
  {
    match v
    case JObject(m) =>
      if "message" in m && m["message"].JString? then Some(m["message"].s) else None
    case JArray(items) =>
      if |items| == 1 && items[0].JString? then Some(items[0].s) else None
    case _ => None
  }

  function NamedError(name: string, message: string): ApiError
  {
    Payments("error name: " + name + ", message: " + message)
  }

  const PayPalUnreachable := Payments("could not communicate with PayPal")
  const PayPalBodyUnreadable := Payments("could not retrieve PayPal response body")
  const PayPalErrorBodyUnknown := Payments("could not retrieve PayPal error body")
  const TremendousUnreachable := Payments("could not communicate with Tremendous")
  const TremendousBodyUnreadable := Payments("could not retrieve Tremendous response body")
  const TremendousErrorJsonUnknown := Payments("could not retrieve Tremendous error json body")
  const TremendousErrorBodyUnknown := Payments("could not retrieve Tremendous error body")

  /** The PayPal classification: `Ok(v)` hands the body `v` to the caller's
      decoder; on a non-success status the `{name, message}` shape is tried,
      then `{error, error_description}`, then the generic error. */
  function ClassifyPayPal(response: Option<HttpResponse>): Result<Json, ApiError>
  {
    match response
    case None => Err(PayPalUnreachable)
    case Some(HttpResponse(status, body)) =>
      match body
      case None => Err(PayPalBodyUnreadable)
      case Some(value) =>
        if IsSuccess(status) then Ok(value)
        else
          match DecodeStringPair(value, "name", "message")
          case Some((name, message)) => Err(NamedError(name, message))
          case None =>
            match DecodeStringPair(value, "error", "error_description")
            case Some((error, description)) => Err(NamedError(error, description))
            case None => Err(PayPalErrorBodyUnknown)
  }

  /** The Tremendous classification. On a non-success status only a JSON
      object is inspected: with an `errors` member its `message` is the
      error, without one the generic error. Any other body falls through to
      the decoder exactly as a success would. */
  function ClassifyTremendous(response: Option<HttpResponse>): Result<Json, ApiError>
  {
    match response
    case None => Err(TremendousUnreachable)
    case Some(HttpResponse(status, body)) =>
      match body
      case None => Err(TremendousBodyUnreadable)
      case Some(value) =>
        if !IsSuccess(status) && value.JObject? then
          if "errors" in value.fields then
            match DecodeMessage(value.fields["errors"])
            case Some(message) => Err(Payments(message))
            case None => Err(TremendousErrorJsonUnknown)
          else Err(TremendousErrorBodyUnknown)
        else Ok(value)
  }

  /** A PayPal body reaches the decoder exactly when the request got a
      success status and a JSON body, and it reaches it unchanged. */
  lemma PayPalDecodesOnlySuccess(response: Option<HttpResponse>)
    ensures ClassifyPayPal(response).Ok?
        <==> response.Some? && IsSuccess(response.value.status) && response.value.body.Some?
    ensures ClassifyPayPal(response).Ok? ==> ClassifyPayPal(response).value == response.value.body.value
    ensures response.None? ==> ClassifyPayPal(response) == Err(PayPalUnreachable)
    ensures response.Some? && response.value.body.None? ==> ClassifyPayPal(response) == Err(PayPalBodyUnreadable)
  {
  }

  /** When a PayPal error body matches both known shapes, `{name, message}`
      wins, and both of its strings are carried into the error verbatim. */
  lemma PayPalNameMessageFirst(status: int, value: Json, name: string, message: string)
    requires !IsSuccess(status)
    requires DecodeStringPair(value, "name", "message") == Some((name, message))
    ensures ClassifyPayPal(Some(HttpResponse(status, Some(value))))
         == Err(Payments("error name: " + name + ", message: " + message))
  {
  }

  /** The identity shape is used only when `{name, message}` does not parse. */
  lemma PayPalIdentityFallback(status: int, value: Json, error: string, description: string)
    requires !IsSuccess(status)
    requires DecodeStringPair(value, "name", "message").None?
    requires DecodeStringPair(value, "error", "error_description") == Some((error, description))
    ensures ClassifyPayPal(Some(HttpResponse(status, Some(value))))
         == Err(Payments("error name: " + error + ", message: " + description))
  {
  }

  /** The generic PayPal error is produced exactly for a non-success JSON body
      that matches neither known shape. */
  lemma PayPalGenericErrorExactly(response: Option<HttpResponse>)
    ensures ClassifyPayPal(response) == Err(PayPalErrorBodyUnknown)
        <==> && response.Some? && !IsSuccess(response.value.status)
             && response.value.body.Some?
             && DecodeStringPair(response.value.body.value, "name", "message").None?
             && DecodeStringPair(response.value.body.value, "error", "error_description").None?
  {
    if response.Some? && response.value.body.Some? && !IsSuccess(response.value.status) {
      var value := response.value.body.value;
      match DecodeStringPair(value, "name", "message")
      case Some((n, m)) => NamedErrorIsNotGeneric(n, m);
      case None =>
        match DecodeStringPair(value, "error", "error_description")
        case Some((e, d)) => NamedErrorIsNotGeneric(e, d);
        case None =>
    }
  }

  /** A named PayPal error never reads as the generic one: its message starts
      with "error name: " and the generic one does not. */
  lemma NamedErrorIsNotGeneric(name: string, message: string)
    ensures NamedError(name, message) != PayPalErrorBodyUnknown
  {
    var text := NamedError(name, message).message;
    assert text[0] == 'e' && text[1] == 'r';
    assert PayPalErrorBodyUnknown.message[0] == 'c';
  }

  /** A Tremendous body reaches the decoder exactly when the request got a
      JSON body that has a success status or is not an object, and it
      reaches it unchanged; a failed request or an unreadable body gives its
      own error. */
  lemma TremendousDecodesExactly(response: Option<HttpResponse>)
    ensures ClassifyTremendous(response).Ok?
        <==> && response.Some? && response.value.body.Some?
             && (IsSuccess(response.value.status) || !response.value.body.value.JObject?)
    ensures ClassifyTremendous(response).Ok? ==> ClassifyTremendous(response).value == response.value.body.value
    ensures response.None? ==> ClassifyTremendous(response) == Err(TremendousUnreachable)
    ensures response.Some? && response.value.body.None? ==> ClassifyTremendous(response) == Err(TremendousBodyUnreadable)
  {
  }

  /** A non-success Tremendous response whose body is not a JSON object is
      handed to the decoder, like a success. */
  lemma TremendousNonObjectFallsThrough(status: int, value: Json)
    requires !value.JObject?
    ensures ClassifyTremendous(Some(HttpResponse(status, Some(value)))) == Ok(value)
  {
  }

  /** A non-success Tremendous object is always an error: the `errors`
      message when it parses, else one of the two generic errors. */
  lemma TremendousObjectErrors(status: int, fields: map<string, Json>)
    requires !IsSuccess(status)
    ensures var r := ClassifyTremendous(Some(HttpResponse(status, Some(JObject(fields)))));
      && r.Err?
      && ("errors" !in fields ==> r.error == TremendousErrorBodyUnknown)
      && ("errors" in fields && DecodeMessage(fields["errors"]).None? ==> r.error == TremendousErrorJsonUnknown)
      && ("errors" in fields && DecodeMessage(fields["errors"]).Some? ==>
            r.error == Payments(DecodeMessage(fields["errors"]).value))
  {
  }
}
