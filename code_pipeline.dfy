/** What both pipeline-stage handlers read from a CodePipeline job event, and
    how an invocation ends. */
module CodePipeline {
  import opened PyValues

  /** The message prefix both handlers put before `str(err)` when an
      exception reaches their top-level `except`. */
  const FUNCTION_EXCEPTION := "Function exception: "

  /** The `failureDetails.type` of every failure report. */
  const JOB_FAILED := "JobFailed"

  /** How the handler itself ends: it returns its completion marker, or an
      exception escapes it. */
  datatype Ending = Returned(marker: string) | Escaped(exc: Exc)

  /** `event["CodePipeline.job"]["id"]` */
  function JobId(event: Json): Result<Json> {
    var job :- Index(event, "CodePipeline.job");
    Index(job, "id")
  }

  /** `event["CodePipeline.job"]["data"]` */
  function JobData(event: Json): Result<Json> {
    var job :- Index(event, "CodePipeline.job");
    Index(job, "data")
  }

  /** `json.loads(job_data["actionConfiguration"]["configuration"]["UserParameters"])` */
  function UserParameters(lib: JsonLib, jobData: Json): Result<Json> {
    var action :- Index(jobData, "actionConfiguration");
    var configuration :- Index(action, "configuration");
    var text :- Index(configuration, "UserParameters");
    Loads(lib, text)
  }

  /** The event the orchestrator sends: a job id, the action's UserParameters
      text and, on re-invocation, the continuation token of the previous one. */
  function Event(jobId: Json, userParameters: string, token: Option<string>): (event: Json)
    ensures JobId(event) == Ok(jobId)
    ensures JobData(event).Ok? && (HasKey(JobData(event).value, "continuationToken") <==> token.Some?)
    ensures token.Some? ==> JobData(event).value.fields["continuationToken"] == Str(token.value)
    ensures forall lib: JsonLib :: UserParameters(lib, JobData(event).value) == lib.loads(userParameters)
  {
    var configuration := Obj(map["UserParameters" := Str(userParameters)]);
    var action := Obj(map["configuration" := configuration]);
    var data := match token
      case None => Obj(map["actionConfiguration" := action])
      case Some(t) => Obj(map["actionConfiguration" := action, "continuationToken" := Str(t)]);
    Obj(map["CodePipeline.job" := Obj(map["id" := jobId, "data" := data])])
  }
}
