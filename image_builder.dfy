/** The image-build poll driver: one invocation of the pipeline stage either
    starts an image pipeline execution, or polls the build named by the
    continuation token, and reports success, continuation or failure back to
    CodePipeline. The orchestrator re-invokes the stage after a continuation;
    each invocation is one call of `Handle`. */
module ImageBuilder {
  import opened PyValues
  import opened CodePipeline

  /** The external calls an invocation makes, in order. */
  datatype Call =
    | StartImagePipelineExecution(imagePipelineArn: Json)
    | GetImage(imageBuildVersionArn: Json)
    | PutJobSuccess(jobId: Json)
    | PutJobContinuation(jobId: Json, continuationToken: string)
    | PutJobFailure(jobId: Json, failureType: string, message: string)

  predicate IsReport(c: Call) {
    c.PutJobSuccess? || c.PutJobContinuation? || c.PutJobFailure?
  }

  /** The world outside the handler: the json module, the two Image Builder
      calls (the started build's ARN; the polled image's
      `["image"]["state"]["status"]`), and whether a CodePipeline report call
      raises. */
  datatype Env = Env(
    json: JsonLib,
    startPipeline: Json -> Result<string>,
    imageStatus: Json -> Result<string>,
    raises: Call -> Option<Exc>)

  /** The calls made inside the `try` block and the exception, if any, that
      left it. */
  datatype Attempt = Attempt(calls: seq<Call>, raised: Option<Exc>)

  /** A whole invocation: every external call, and how the handler ended. */
  datatype Run = Run(calls: seq<Call>, ending: Ending)

  /** The build status, closed into the three cases the handler tells apart. */
  datatype BuildState = Available | Failed | Pending(status: string)

  function Classify(status: string): (s: BuildState)
    ensures s == Available <==> status == "AVAILABLE"
    ensures s == Failed <==> status == "FAILED"
    ensures s.Pending? ==> s.status == status
  {
    if status == "AVAILABLE" then Available
    else if status == "FAILED" then Failed
    else Pending(status)
  }

  /** The object `continue_job_later` serialises as the continuation token. */
  function TokenPayload(arn: Json): Json {
    Obj(map["ImageBuildVersionArn" := arn])
  }

  /** `json.dumps({"ImageBuildVersionArn": arn})`; `TokenRoundTrip` shows the
      ARN decodes back out of it. */
  function EncodeToken(lib: JsonLib, arn: Json): string {
    lib.dumps(TokenPayload(arn))
  }

  /** `json.loads(job_data["continuationToken"])["ImageBuildVersionArn"]` */
  function DecodeToken(lib: JsonLib, token: Json): (r: Result<Json>)
    ensures !token.Str? ==> r.Err?
    ensures r.Ok? <==> token.Str? && lib.loads(token.s).Ok? && HasKey(lib.loads(token.s).value, "ImageBuildVersionArn")
    ensures r.Ok? ==> r.value == lib.loads(token.s).value.fields["ImageBuildVersionArn"]
  {
    var payload :- Loads(lib, token);
    Index(payload, "ImageBuildVersionArn")
  }

  /** Makes one external call after `prior`; it raises as the world says. */
  function Call1(env: Env, prior: seq<Call>, c: Call): Attempt {
    Attempt(prior + [c], env.raises(c))
  }

  /** No continuation token: start the pipeline and ask to be called again
      with the new build's ARN. */
  function Trigger(env: Env, jobId: Json, pipelineArn: Json): Attempt {
    var start := StartImagePipelineExecution(pipelineArn);
    match env.startPipeline(pipelineArn)
    case Err(e) => Attempt([start], Some(e))
    case Ok(arn) => Call1(env, [start], PutJobContinuation(jobId, EncodeToken(env.json, Str(arn))))
  }

  /** A continuation token: poll the build it names and report on its status. */
  function Poll(env: Env, jobId: Json, token: Json): Attempt {
    match DecodeToken(env.json, token)
    case Err(e) => Attempt([], Some(e))
    case Ok(arn) =>
      var get := GetImage(arn);
      match env.imageStatus(arn)
      case Err(e) => Attempt([get], Some(e))
      case Ok(status) => Call1(env, [get], StatusReport(env.json, jobId, arn, Classify(status)))
  }

  /** The one report a polled status calls for. */
  function StatusReport(lib: JsonLib, jobId: Json, arn: Json, state: BuildState): Call {
    match state
    case Available => PutJobSuccess(jobId)
    case Failed => PutJobFailure(jobId, JOB_FAILED, "Build Error")
    case Pending(_) => PutJobContinuation(jobId, EncodeToken(lib, arn))
  }

  /** The job data and the `imageBuildVersionArn` user parameter. */
  function Setup(env: Env, event: Json): Result<(Json, Json)> {
    var jobData :- JobData(event);
    var params :- UserParameters(env.json, jobData);
    var pipelineArn :- Index(params, "imageBuildVersionArn");
    Ok((jobData, pipelineArn))
  }

  /** The `try` block after `job_id` is bound. The `imageBuildVersionArn`
      parameter is read before the token is looked at, so every invocation
      needs it. */
  function Body(env: Env, jobId: Json, event: Json): Attempt {
    match Setup(env, event)
    case Err(e) => Attempt([], Some(e))
    case Ok((jobData, pipelineArn)) =>
      if HasKey(jobData, "continuationToken") then Poll(env, jobId, jobData.fields["continuationToken"])
      else Trigger(env, jobId, pipelineArn)
  }

  /** The failure report the `except` block makes for `e`. */
  function ExceptReport(jobId: Json, e: Exc): (c: Call)
    ensures IsReport(c) && c.PutJobFailure? && c.jobId == jobId && c.failureType == "JobFailed"
    ensures |c.message| == |FUNCTION_EXCEPTION| + |Describe(e)|
    ensures c.message[..|FUNCTION_EXCEPTION|] == "Function exception: " && c.message[|FUNCTION_EXCEPTION|..] == Describe(e)
  {
    PutJobFailure(jobId, JOB_FAILED, FUNCTION_EXCEPTION + Describe(e))
  }

  /** `lambda_handler`. If the job id cannot be read, the `except` block
      itself reads the unbound `job_id` and that error escapes. */
  function Handle(event: Json, env: Env): (run: Run)
    ensures run.ending.Returned? ==> run.ending.marker == "Complete"
    ensures run.ending.Escaped? ==>
      || (JobId(event).Err? && run.calls == [])
      || (run.calls != [] && run.calls[|run.calls| - 1].PutJobFailure? &&
          env.raises(run.calls[|run.calls| - 1]) == Some(run.ending.exc))
  {
    match JobId(event)
    case Err(_) => Run([], Escaped(UnboundLocal("job_id")))
    case Ok(jobId) =>
      var a := Body(env, jobId, event);
      match a.raised
      case None => Run(a.calls, Returned("Complete"))
      case Some(e) =>
        var report := ExceptReport(jobId, e);
        Run(a.calls + [report],
            match env.raises(report)
            case None => Returned("Complete")
            case Some(e2) => Escaped(e2))
  }

  /** A world in which no CodePipeline report call fails. */
  ghost predicate ReportsSucceed(env: Env) {
    forall c :: IsReport(c) ==> env.raises(c) == None
  }

  // ---------------------------------------------------------------------
  // Properties

  /** The job id is the one thing the handler cannot do without: missing, no
      report is made and the handler does not return; present, some report is
      always made and it is the last call. */
  lemma MissingJobIdEscapes(event: Json, env: Env)
    ensures JobId(event).Err? ==> Handle(event, env) == Run([], Escaped(UnboundLocal("job_id")))
    ensures JobId(event).Ok? ==>
      var run := Handle(event, env);
      run.calls != [] && IsReport(run.calls[|run.calls| - 1]) &&
      (run.ending.Escaped? ==> env.raises(run.calls[|run.calls| - 1]) == Some(run.ending.exc))
  {
  }

  /** When the report calls work, every invocation with a job id makes at most
      one Image Builder call, exactly one report, last, and returns "Complete". */
  lemma {:induction false} OneReportPerInvocation(event: Json, env: Env)
    requires JobId(event).Ok?
    requires ReportsSucceed(env)
    ensures var run := Handle(event, env);
      run.ending == Returned("Complete") &&
      1 <= |run.calls| <= 2 &&
      IsReport(run.calls[|run.calls| - 1]) &&
      forall k :: 0 <= k < |run.calls| - 1 ==> !IsReport(run.calls[k])
  {
    var jobId := JobId(event).value;
    BodyWhenReportsSucceed(env, jobId, event);
    var a := Body(env, jobId, event);
    if a.raised.Some? {
      assert IsReport(ExceptReport(jobId, a.raised.value));
    }
  }

  /** The shape of the `try` block when no report raises: either it ends with
      its one report, or it raised before reaching any report. */
  lemma BodyWhenReportsSucceed(env: Env, jobId: Json, event: Json)
    requires ReportsSucceed(env)
    ensures var a := Body(env, jobId, event);
      && |a.calls| <= 2
      && (a.calls != [] ==> !IsReport(a.calls[0]) || |a.calls| == 1)
      && (a.raised.None? <==> a.calls != [] && IsReport(a.calls[|a.calls| - 1]))
      && (a.raised.Some? ==> |a.calls| <= 1 && forall k :: 0 <= k < |a.calls| ==> !IsReport(a.calls[k]))
  {
    match Setup(env, event)
    case Err(_) =>
    case Ok((jobData, pipelineArn)) =>
      if HasKey(jobData, "continuationToken") {
        var token := jobData.fields["continuationToken"];
        match DecodeToken(env.json, token)
        case Err(_) =>
        case Ok(arn) =>
          match env.imageStatus(arn)
          case Err(_) =>
          case Ok(status) =>
            assert IsReport(StatusReport(env.json, jobId, arn, Classify(status)));
      } else {
        match env.startPipeline(pipelineArn)
        case Err(_) =>
        case Ok(arn) =>
          assert IsReport(PutJobContinuation(jobId, EncodeToken(env.json, Str(arn))));
      }
  }

  /** First invocation: one start call with the `imageBuildVersionArn`
      parameter, then a continuation whose token carries the new build's ARN. */
  lemma StartsBuildOnce(event: Json, env: Env, jobId: Json, params: Json, pipelineArn: Json, buildArn: string)
    requires JobId(event) == Ok(jobId)
    requires JobData(event).Ok? && !HasKey(JobData(event).value, "continuationToken")
    requires UserParameters(env.json, JobData(event).value) == Ok(params)
    requires Index(params, "imageBuildVersionArn") == Ok(pipelineArn)
    requires env.startPipeline(pipelineArn) == Ok(buildArn)
    requires ReportsSucceed(env)
    ensures Handle(event, env) ==
      Run([StartImagePipelineExecution(pipelineArn),
           PutJobContinuation(jobId, EncodeToken(env.json, Str(buildArn)))],
          Returned("Complete"))
  {
  }

  /** The ARN written into the token is the ARN read back from it, given that
      `json.loads` undoes `json.dumps` on that object. */
  lemma TokenRoundTrip(lib: JsonLib, arn: Json)
    requires lib.loads(lib.dumps(TokenPayload(arn))) == Ok(TokenPayload(arn))
    ensures DecodeToken(lib, Str(EncodeToken(lib, arn))) == Ok(arn)
  {
  }

  /** Re-invoked with the token it issued, the driver polls exactly the build
      it started; the same holds for every later poll, whose token carries the
      ARN unchanged. */
  lemma {:induction false} PollsTheStartedBuild(env: Env, jobId: Json, userParameters: string, params: Json, pipelineArn: Json, buildArn: string)
    requires env.json.loads(userParameters) == Ok(params)
    requires Index(params, "imageBuildVersionArn") == Ok(pipelineArn)
    requires env.startPipeline(pipelineArn) == Ok(buildArn)
    requires env.json.loads(EncodeToken(env.json, Str(buildArn))) == Ok(TokenPayload(Str(buildArn)))
    requires ReportsSucceed(env)
    ensures var first := Handle(Event(jobId, userParameters, None), env);
      |first.calls| == 2 && first.calls[1].PutJobContinuation? &&
      var again := Handle(Event(jobId, userParameters, Some(first.calls[1].continuationToken)), env);
      again.calls != [] && again.calls[0] == GetImage(Str(buildArn))
  {
    var first := Event(jobId, userParameters, None);
    StartsBuildOnce(first, env, jobId, params, pipelineArn, buildArn);
    var token := EncodeToken(env.json, Str(buildArn));
    var again := Event(jobId, userParameters, Some(token));
    TokenRoundTrip(env.json, Str(buildArn));
    assert JobData(again).value.fields["continuationToken"] == Str(token);
  }

  /** The common setup of the three poll lemmas below: a continuation
      invocation whose token names `arn` and whose build reports `status`. */
  ghost predicate PollsWith(event: Json, env: Env, jobId: Json, arn: Json, status: string) {
    && JobId(event) == Ok(jobId)
    && JobData(event).Ok?
    && HasKey(JobData(event).value, "continuationToken")
    && UserParameters(env.json, JobData(event).value).Ok?
    && Index(UserParameters(env.json, JobData(event).value).value, "imageBuildVersionArn").Ok?
    && DecodeToken(env.json, JobData(event).value.fields["continuationToken"]) == Ok(arn)
    && env.imageStatus(arn) == Ok(status)
  }

  /** A poll invocation polls `arn` and then makes the report its status
      calls for, and nothing else. */
  lemma PolledRun(event: Json, env: Env, jobId: Json, arn: Json, status: string)
    requires PollsWith(event, env, jobId, arn, status)
    requires ReportsSucceed(env)
    ensures Handle(event, env) ==
      Run([GetImage(arn), StatusReport(env.json, jobId, arn, Classify(status))], Returned("Complete"))
  {
    var report := StatusReport(env.json, jobId, arn, Classify(status));
    assert Body(env, jobId, event) == Attempt([GetImage(arn), report], None) by {
      assert IsReport(report);
    }
  }

  /** AVAILABLE: one success report, no failure and no continuation. */
  lemma AvailableSucceeds(event: Json, env: Env, jobId: Json, arn: Json)
    requires PollsWith(event, env, jobId, arn, "AVAILABLE")
    requires ReportsSucceed(env)
    ensures Handle(event, env) == Run([GetImage(arn), PutJobSuccess(jobId)], Returned("Complete"))
  {
    PolledRun(event, env, jobId, arn, "AVAILABLE");
  }

  /** FAILED: one failure report, of type JobFailed with message "Build Error". */
  lemma FailedReportsBuildError(event: Json, env: Env, jobId: Json, arn: Json)
    requires PollsWith(event, env, jobId, arn, "FAILED")
    requires ReportsSucceed(env)
    ensures Handle(event, env) ==
      Run([GetImage(arn), PutJobFailure(jobId, "JobFailed", "Build Error")], Returned("Complete"))
  {
    PolledRun(event, env, jobId, arn, "FAILED");
    assert Classify("FAILED") == Failed by {
      assert |"FAILED"| != |"AVAILABLE"|;
    }
  }

  /** Any other status (PENDING, BUILDING, but also CANCELLED): a continuation
      carrying the same ARN, never success or failure. */
  lemma OtherStatusContinues(event: Json, env: Env, jobId: Json, arn: Json, status: string)
    requires PollsWith(event, env, jobId, arn, status)
    requires status != "AVAILABLE" && status != "FAILED"
    requires ReportsSucceed(env)
    ensures Handle(event, env) ==
      Run([GetImage(arn), PutJobContinuation(jobId, EncodeToken(env.json, arn))], Returned("Complete"))
  {
    PolledRun(event, env, jobId, arn, status);
  }

  /** `imageBuildVersionArn` is read before the token branch: without it even
      a continuation invocation makes no Image Builder call and fails with the
      KeyError's text. */
  lemma MissingPipelineArnFails(event: Json, env: Env, jobId: Json, params: Json)
    requires JobId(event) == Ok(jobId)
    requires JobData(event).Ok?
    requires UserParameters(env.json, JobData(event).value) == Ok(params)
    requires params.Obj? && "imageBuildVersionArn" !in params.fields
    requires ReportsSucceed(env)
    ensures Handle(event, env) ==
      Run([PutJobFailure(jobId, "JobFailed", FUNCTION_EXCEPTION + Describe(KeyError("imageBuildVersionArn")))],
          Returned("Complete"))
  {
    var e := KeyError("imageBuildVersionArn");
    assert Body(env, jobId, event) == Attempt([], Some(e)) by {
      assert Setup(env, event) == Err(e);
    }
    assert IsReport(ExceptReport(jobId, e));
    ExceptionReported(event, env, jobId);
  }

  /** Whatever is raised once `job_id` is bound, including by a report call,
      ends in a report of "Function exception: " and its text. */
  lemma ExceptionReported(event: Json, env: Env, jobId: Json)
    requires JobId(event) == Ok(jobId)
    requires Body(env, jobId, event).raised.Some?
    ensures var e := Body(env, jobId, event).raised.value;
      var run := Handle(event, env);
      run.calls == Body(env, jobId, event).calls + [PutJobFailure(jobId, "JobFailed", "Function exception: " + Describe(e))] &&
      (env.raises(run.calls[|run.calls| - 1]) == None ==> run.ending == Returned("Complete"))
  {
  }
}
