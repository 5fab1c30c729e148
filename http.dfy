/**
 * The HTTP side of the OpenWeather client: the reply a transport gives
 * for a URL (a status code and the outcome of decoding its body as JSON),
 * the response object the client reads and closes, the transport that
 * records the URLs it was asked for, and the dictionary the client returns.
 */
module Http {
  import opened Text

  datatype Json =
    | JNull
    | JBool(b: bool)
    | JInt(i: int)
    | JReal(r: real)
    | JString(s: string)
    | JArray(elems: seq<Json>)
    | JObject(fields: map<string, Json>)

  /** What `response.json()` does: return the decoded top-level object, or raise JSONDecodeError with a message. */
  datatype JsonOutcome = Decoded(obj: map<string, Json>) | DecodeError(message: string)

  /** What the server sends for one request. */
  datatype Answer = Answer(status: int, body: JsonOutcome)

  /** A value of the dictionaries the client returns: a message or the forecast data. */
  datatype Value = Str(s: string) | Data(fields: map<string, Json>)

  /** The dictionary returned by `request_forecast` and `_process_response`. */
  type Reply = map<string, Value>

  const StatusOk := 200
  const RetrieveError := "Unable to retrieve forecast data (code: "
  const DecodeErrorPrefix := "Unable to decode data received from Open Weather: "

  /** One HTTP response; `closeCount` counts the calls of `close()`. */
  class Response {
    const status: int
    const body: JsonOutcome
    var closeCount: nat

    constructor (answer: Answer)
      ensures status == answer.status && body == answer.body && closeCount == 0
    {
      status := answer.status;
      body := answer.body;
      closeCount := 0;
    }

    /** `response.json()`. */
    method Json() returns (outcome: JsonOutcome)
      ensures outcome == body
    {
      outcome := body;
    }

    /** `response.close()`. */
    method Close()
      modifies this
      ensures closeCount == old(closeCount) + 1
    {
      closeCount := closeCount + 1;
    }
  }

  /**
   * The injected `requests` object. The server's behaviour is the function
   * `serve`; `sent` is the list of URLs requested so far.
   */
  class Transport {
    const serve: string -> Answer
    var sent: seq<string>

    constructor (serve: string -> Answer)
      ensures this.serve == serve && sent == []
    {
      this.serve := serve;
      sent := [];
    }

    /** `requests.get(url)`: one request, answered with a fresh, open response. */
    method Get(url: string) returns (response: Response)
      modifies this
      ensures sent == old(sent) + [url]
      ensures fresh(response) && response.closeCount == 0
      ensures response.status == serve(url).status && response.body == serve(url).body
    {
      sent := sent + [url];
      response := new Response(serve(url));
    }
  }

  /**
   * What `_process_response` returns for a response with the given status
   * and body: the retrieval error for a status other than 200, the decode
   * error for an undecodable body, and otherwise the decoded object with
   * `statuscode` set.
   */
  function ResponseReply(status: int, body: JsonOutcome): (r: Reply)
    ensures ("err" in r) != ("data" in r)
  {
    if status != StatusOk then map["err" := Str(RetrieveError + IntToString(status) + ")")]
    else match body
      case DecodeError(message) => map["err" := Str(DecodeErrorPrefix + message)]
      case Decoded(obj) => map["data" := Data(obj["statuscode" := JInt(status)])]
  }

  /**
   * Exactly one of `err` and `data` is present. `err` is present exactly
   * when the status is not 200 or the body does not decode, and names the
   * status or the decode message; `data` is the decoded object with
   * `statuscode` 200 added and every other field kept.
   */
  lemma ResponseReplyShape(status: int, body: JsonOutcome)
    ensures var r := ResponseReply(status, body);
      && r.Keys == (if status != StatusOk || body.DecodeError? then {"err"} else {"data"})
      && (status != StatusOk ==>
            r["err"] == Str(RetrieveError + IntToString(status) + ")")
            && r["err"].s[..|RetrieveError|] == RetrieveError)
      && (status == StatusOk && body.DecodeError? ==>
            r["err"].s[..|DecodeErrorPrefix|] == DecodeErrorPrefix
            && r["err"].s[|DecodeErrorPrefix|..] == body.message)
      && (status == StatusOk && body.Decoded? ==>
            && r["data"].Data?
            && r["data"].fields.Keys == body.obj.Keys + {"statuscode"}
            && r["data"].fields["statuscode"] == JInt(200)
            && forall k :: k in body.obj && k != "statuscode" ==> r["data"].fields[k] == body.obj[k])
  {
  }

  /** The digits in the retrieval error read back as the status (for the non-negative codes HTTP uses). */
  lemma RetrieveErrorNamesStatus(status: nat, body: JsonOutcome)
    requires status != StatusOk
    ensures var msg := ResponseReply(status, body)["err"].s;
      && |RetrieveError| < |msg|
      && (forall i :: |RetrieveError| <= i < |msg| - 1 ==> IsDigit(msg[i]))
      && DigitsValue(msg[|RetrieveError|..|msg| - 1]) == status
  {
    NatToStringRoundTrip(status);
    var msg := ResponseReply(status, body)["err"].s;
    assert msg == RetrieveError + NatToString(status) + ")";
    assert msg[|RetrieveError|..|msg| - 1] == NatToString(status);
  }

  /** A status of 400 gives exactly the retrieval message for code 400. */
  lemma BadStatusMessage(body: JsonOutcome)
    ensures ResponseReply(400, body) == map["err" := Str("Unable to retrieve forecast data (code: 400)")]
  {
    assert NatToString(4) == "4";
    assert NatToString(40) == "40";
    assert NatToString(400) == "400";
    assert IntToString(400) == "400";
    assert RetrieveError + "400" + ")" == "Unable to retrieve forecast data (code: 400)";
  }
}
