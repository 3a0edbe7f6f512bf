/** How a failed submission is described to the user. The request library
    rejects with an error object that may carry the server's response, may
    record that a request went out, and always has a message; the form picks
    one of three texts from it, in priority order. */
module SubmitErrors {
  import opened JsText

  datatype Option<T> = None | Some(value: T)

  /** The server's reply to a rejected request: its status code and the
      `message` field of its JSON body (`None` when that field is absent or
      falsy but not a string). */
  datatype HttpResponse = HttpResponse(status: nat, message: Option<string>)

  /** What the component reads from the rejection: `error.response`,
      whether `error.request` is set, and `error.message`. */
  datatype RequestError = RequestError(
    response: Option<HttpResponse>,
    requestSent: bool,
    message: string)

  const UnknownError := "Unknown error occurred"

  const ConnectivityAdvice :=
    "No response received from the server. Please check your internet connection."

  /** The connectivity message, "Error: " followed by the advice. */
  const NoResponseMessage := "Error: " + ConnectivityAdvice

  /** `data.message || 'Unknown error occurred'`: the server's message when
      it is a non-empty string, otherwise the fallback. */
  function ShownMessage(m: Option<string>): (r: string)
    ensures r != ""
    ensures m.Some? && m.value != "" ==> r == m.value
    ensures !(m.Some? && m.value != "") ==> r == UnknownError
  {
    match m
    case Some(t) => if t != "" then t else UnknownError
    case None => UnknownError
  }

  /** "Error <status>: <message>". */
  function ResponseMessage(r: HttpResponse): string {
    "Error " + Decimal(r.status) + ": " + ShownMessage(r.message)
  }

  /** "Error: <message>" for a request that could not be set up. */
  function SetupMessage(message: string): string {
    "Error: " + message
  }

  /** The message set after a failed submission: a response takes
      precedence, then a request that went out unanswered, then the setup
      error. */
  function Message(e: RequestError): (r: string)
    ensures |r| >= 7 && r[..5] == "Error"
    ensures e.response.Some? ==> r[5] == ' ' && '0' <= r[6] <= '9'
    ensures e.response.None? ==> r[..7] == "Error: "
  {
    if e.response.Some? then ResponseMessage(e.response.value)
    else if e.requestSent then NoResponseMessage
    else SetupMessage(e.message)
  }

  /** Reading a failure message back gives what it was built from: with a
      response, the digits after "Error " parse to the status and the text
      after the following ": " is the shown server message; without one,
      the text after "Error: " is the connectivity advice when a request
      went out and the error's own message otherwise. */
  lemma MessageReadsBack(e: RequestError)
    ensures e.response.Some? ==>
      var m := Message(e);
      m[..6] == "Error "
      && exists k :: 6 < k <= |m| - 2 && IsDigits(m[6..k])
                     && ParseDecimal(m[6..k]) == e.response.value.status
                     && m[k..k + 2] == ": "
                     && m[k + 2..] == ShownMessage(e.response.value.message)
    ensures e.response.None? && e.requestSent ==> Message(e)[7..] == ConnectivityAdvice
    ensures e.response.None? && !e.requestSent ==> Message(e)[7..] == e.message
  {
    var m := Message(e);
    if e.response.Some? {
      var r := e.response.value;
      var d := Decimal(r.status);
      var k := 6 + |d|;
      assert m == "Error " + d + ": " + ShownMessage(r.message);
      assert m[6..k] == d;
      assert m[k..k + 2] == ": ";
      assert m[k + 2..] == ShownMessage(r.message);
      ParseDecimalOfDecimal(r.status);
    }
  }

  /** The three kinds of failure, as the component tells them apart. */
  datatype Kind = ServerRejected | NoResponse | SetupFailed

  function KindOf(e: RequestError): Kind {
    if e.response.Some? then ServerRejected
    else if e.requestSent then NoResponse
    else SetupFailed
  }

  /** A status message can never be mistaken for either of the other two:
      it reads "Error " and a digit where they read "Error:". */
  lemma ServerRejectedStandsApart(e1: RequestError, e2: RequestError)
    requires KindOf(e1) == ServerRejected && KindOf(e2) != ServerRejected
    ensures Message(e1) != Message(e2)
  {
    assert Message(e1)[5] == ' ';
    assert Message(e2)[5] == ':';
  }

  /** From a status message one can read back the status and the text shown. */
  lemma ResponseMessageInjective(a: HttpResponse, b: HttpResponse)
    requires ResponseMessage(a) == ResponseMessage(b)
    ensures a.status == b.status
    ensures ShownMessage(a.message) == ShownMessage(b.message)
  {
    var da, db := Decimal(a.status), Decimal(b.status);
    var ma, mb := ShownMessage(a.message), ShownMessage(b.message);
    var s := ResponseMessage(a);
    assert s == "Error " + da + ": " + ma;
    assert s == "Error " + db + ": " + mb;
    assert forall i :: 0 <= i < |da| ==> s[6 + i] == da[i];
    assert forall i :: 0 <= i < |db| ==> s[6 + i] == db[i];
    assert s[6 + |da|] == ':';
    assert s[6 + |db|] == ':';
    if |da| < |db| {
      assert false;
    } else if |db| < |da| {
      assert false;
    }
    assert da == s[6..6 + |da|] == db;
    DecimalInjective(a.status, b.status);
    assert ma == s[8 + |da|..] == mb;
  }

  /** The connectivity text and the setup text are told apart by their
      wording only: a setup error whose own message happens to be the
      connectivity advice reads exactly like a missing response. */
  lemma NoResponseLooksLikeSetupOnlyByWording(e1: RequestError, e2: RequestError)
    requires KindOf(e1) == NoResponse && KindOf(e2) == SetupFailed
    ensures Message(e1) == Message(e2) <==> e2.message == ConnectivityAdvice
  {
    if Message(e1) == Message(e2) {
      assert e2.message == Message(e2)[7..] == Message(e1)[7..] == ConnectivityAdvice;
    }
  }
}
