/** Workflow::status (src/railway/workflow.rs): poll the provisioning
    workflow until its status is not Running. Each tick of the 5-second
    interval is one loop step; the platform's answers are a finite script,
    one exchange per query. */
module Workflows {
  import opened Wrappers
  import opened Errors
  import Railway
  import Polling

  const NOT_FOUND := "Not Found"

  /** WorkflowStatusEnumResponse */
  datatype ResponseStatus = Complete | Error | NotFound | Running

  /** WorkflowStatusResponse.workflowStatus */
  datatype StatusResponse = StatusResponse(error: Option<string>, status: ResponseStatus)

  /** What the poller returns: never a running state. */
  datatype WorkflowStatus = Complete | Error(message: string)

  /** The match that ends the poll: None for Running, which polls again. */
  function Settled(r: StatusResponse): Option<WorkflowStatus> {
    match r.status
    case Complete => Some(WorkflowStatus.Complete)
    case Error => Some(WorkflowStatus.Error(r.error.UnwrapOr("")))
    case NotFound => Some(WorkflowStatus.Error(NOT_FOUND))
    case Running => None
  }

  /** Whether this answer ends the poll: a failed query, or a status that is not Running. */
  predicate Ends(x: Railway.Exchange<StatusResponse>) {
    var q := Railway.Query(x);
    q.Failure? || Settled(q.value).Some?
  }

  /** The script reaches an answer that ends the poll (otherwise the source
      polls forever). */
  predicate Settles(xs: seq<Railway.Exchange<StatusResponse>>) {
    Polling.Settles(xs, Ends)
  }

  /** The result the poller returns for a script. */
  function StatusOf(xs: seq<Railway.Exchange<StatusResponse>>): Result<WorkflowStatus, Error>
    requires Settles(xs)
  {
    var q := Railway.Query(xs[Polling.FirstEnd(xs, Ends)]);
    match q
    case Failure(e) => Failure(e)
    case Success(r) => Success(Settled(r).value)
  }

  /** The poll loop: query, map the status, and query again on Running. */
  method Status(responses: seq<Railway.Exchange<StatusResponse>>)
    returns (result: Result<WorkflowStatus, Error>, queries: nat)
    requires Settles(responses)
    ensures queries == Polling.FirstEnd(responses, Ends) + 1
    ensures result == StatusOf(responses)
    // every query before the last one answered Running
    ensures forall j :: 0 <= j < queries - 1 ==>
      Railway.Query(responses[j]).Success? && Railway.Query(responses[j]).value.status == Running
    // the last answer decides the result
    ensures var last := Railway.Query(responses[queries - 1]);
      && (last.Failure? ==> result == Failure(last.error))
      && (last.Success? && last.value.status == ResponseStatus.Complete ==> result == Success(WorkflowStatus.Complete))
      && (last.Success? && last.value.status == ResponseStatus.Error ==>
            result == Success(WorkflowStatus.Error(last.value.error.UnwrapOr(""))))
      && (last.Success? && last.value.status == ResponseStatus.NotFound ==>
            result == Success(WorkflowStatus.Error(NOT_FOUND)))
  {
    var i := 0;
    while true
      invariant i <= Polling.FirstEnd(responses, Ends)
      decreases Polling.FirstEnd(responses, Ends) - i
    {
      queries := i + 1;
      var response := Railway.Query(responses[i]);
      if response.Failure? {
        return Failure(response.error), queries;
      }
      var status: WorkflowStatus;
      match response.value.status {
        case Complete => status := WorkflowStatus.Complete;
        case Error => status := WorkflowStatus.Error(response.value.error.UnwrapOr(""));
        case NotFound => status := WorkflowStatus.Error(NOT_FOUND);
        case Running =>
          i := i + 1;
          continue;
      }
      return Success(status), queries;
    }
  }

  /** An exchange that answers with the given status and no error text. */
  function Answer(status: ResponseStatus): Railway.Exchange<StatusResponse> {
    Railway.Received(200, Success(""), Railway.Parsed(Railway.Envelope(Some(StatusResponse(None, status)), None)))
  }

  /** Two Running answers, then Complete: three queries and Complete. */
  lemma RunningTwiceThenComplete()
    ensures Settles([Answer(Running), Answer(Running), Answer(ResponseStatus.Complete)])
    ensures Polling.FirstEnd([Answer(Running), Answer(Running), Answer(ResponseStatus.Complete)], Ends) + 1 == 3
    ensures StatusOf([Answer(Running), Answer(Running), Answer(ResponseStatus.Complete)]) == Success(WorkflowStatus.Complete)
  {
    var xs := [Answer(Running), Answer(Running), Answer(ResponseStatus.Complete)];
    assert Ends(xs[2]);
    assert !Ends(xs[0]) && !Ends(xs[1]);
  }
}
