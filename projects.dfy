/** Project::delete (src/railway/project.rs): one query whose boolean
    answer `projectDelete` is turned into success or a typed error. */
module Projects {
  import opened Wrappers
  import opened Errors
  import Railway

  const DELETE_REFUSED := "Unable to delete project: "

  /** The outcome of deleting `projectId` when the platform's answer to the
      single delete query is `x`. */
  function Delete(projectId: string, x: Railway.Exchange<bool>): (r: Result<(), Error>)
    ensures r.Success? <==> Railway.Query(x) == Success(true)
    ensures Railway.Query(x).Failure? ==> r == Failure(Railway.Query(x).error)
    ensures Railway.Query(x) == Success(false) ==>
      r == Failure(RailwayStatusFailure(0, DELETE_REFUSED + projectId))
  {
    match Railway.Query(x)
    case Failure(e) => Failure(e)
    case Success(deleted) =>
      if !deleted then Failure(RailwayStatusFailure(0, DELETE_REFUSED + projectId))
      else Success(())
  }
}
