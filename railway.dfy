/** Railway::query (src/railway.rs): the classification of one GraphQL
    exchange with the platform into the answer's data or a typed error.
    The transport itself is not modelled: an `Exchange` is what the HTTP
    client observed, and the classification is checked in the source's
    order: send, HTTP status, body, `errors`, then `data`. */
module Railway {
  import opened Wrappers
  import opened Errors

  const URL := "https://backboard.railway.app/graphql/v2"
  /** The message of RailwayDataMissing: a plain string literal whose
      `{query}` is never formatted. */
  const DATA_MISSING := "no data returned for: {query}"

  datatype RailwayError = RailwayError(message: string)

  /** RailwayResponse<T>; `errors` is None when the field is absent from
      the JSON, `data` is None when absent or null. */
  datatype Envelope<T> = Envelope(data: Option<T>, errors: Option<seq<RailwayError>>)

  /** What reading a 200 response's body as JSON and decoding it as an
      envelope produced. */
  datatype Body<T> =
    | Unreadable(reason: string)                 // `response.json()` failed
    | NotEnvelope(reason: string, json: string)  // JSON that is no RailwayResponse<T>
    | Parsed(envelope: Envelope<T>)

  /** One request/response exchange: the send failed, or a response
      arrived with a status, the outcome of reading it as text (used only
      when the status is not 200) and the outcome of reading it as JSON
      (used only when it is 200). */
  datatype Exchange<T> =
    | SendFailed(reason: string)
    | Received(status: u16, text: Result<string, string>, body: Body<T>)

  /** `#[serde(default)]` on `errors`: an absent list is the empty list. */
  function ErrorsOf<T>(e: Envelope<T>): seq<RailwayError> {
    e.errors.UnwrapOr([])
  }

  /** The messages of the `errors` list, in order. */
  function Messages(errors: seq<RailwayError>): (m: seq<string>)
    ensures |m| == |errors|
    ensures forall i :: 0 <= i < |errors| ==> m[i] == errors[i].message
  {
    if errors == [] then [] else [errors[0].message] + Messages(errors[1..])
  }

  function Query<T>(x: Exchange<T>): (r: Result<T, Error>)
    ensures r.Success? <==>
      && x.Received? && x.status == 200 && x.body.Parsed?
      && ErrorsOf(x.body.envelope) == [] && x.body.envelope.data.Some?
    ensures r.Success? ==> r.value == x.body.envelope.data.value
  {
    match x
    case SendFailed(reason) => Failure(RailwayFailure(reason, URL))
    case Received(status, text, body) =>
      if status != 200 then
        match text
        case Success(t) => Failure(RailwayStatusFailure(status, t))
        case Failure(reason) => Failure(RailwayBody(reason, URL))
      else
        match body
        case Unreadable(reason) => Failure(RailwayBody(reason, URL))
        case NotEnvelope(reason, json) => Failure(JsonWithMetadata(reason, json))
        case Parsed(envelope) =>
          var errors := ErrorsOf(envelope);
          if errors != [] then Failure(Railway(Messages(errors)))
          else if envelope.data.Some? then Success(envelope.data.value)
          else Failure(RailwayDataMissing(DATA_MISSING))
  }

  /** A status other than 200 is reported with its code and text before
      the body is looked at: no body can change the answer. */
  lemma StatusCheckedFirst<T>(x: Exchange<T>, other: Body<T>)
    requires x.Received? && x.status != 200 && x.text.Success?
    ensures Query(x) == Failure(RailwayStatusFailure(x.status, x.text.value))
    ensures Query(x.(body := other)) == Query(x)
  {
  }

  /** A non-empty `errors` list wins over any `data`, and its messages keep
      their count and order. */
  lemma ErrorsTakePrecedence<T>(x: Exchange<T>)
    requires x.Received? && x.status == 200 && x.body.Parsed?
    requires ErrorsOf(x.body.envelope) != []
    ensures Query(x).Failure? && Query(x).error.Railway?
    ensures |Query(x).error.messages| == |ErrorsOf(x.body.envelope)|
    ensures forall i :: 0 <= i < |ErrorsOf(x.body.envelope)| ==>
      Query(x).error.messages[i] == ErrorsOf(x.body.envelope)[i].message
  {
  }

  /** Empty `errors` and no `data`: RailwayDataMissing. */
  lemma MissingDataReported<T>(x: Exchange<T>)
    requires x.Received? && x.status == 200 && x.body.Parsed?
    requires ErrorsOf(x.body.envelope) == [] && x.body.envelope.data.None?
    ensures Query(x) == Failure(RailwayDataMissing(DATA_MISSING))
  {
  }

  /** An absent `errors` field is classified like an empty one. */
  lemma AbsentErrorsAreEmpty<T>(status: u16, text: Result<string, string>, data: Option<T>)
    ensures Query(Received(status, text, Parsed(Envelope(data, None))))
         == Query(Received(status, text, Parsed(Envelope(data, Some([])))))
  {
  }
}
