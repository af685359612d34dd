/** The AMI create/delete stage: read `PipelineName` and `Usage` from the
    job's UserParameters, then either create an image of an instance (named
    after its tag and the current time) or deregister an image, and report the
    outcome to CodePipeline.

    `Handle` is the handler with its `logging.INFO(...)` lines read as the
    logging calls they were meant to be (no-ops here); `HandleAsWritten` is the
    handler as the file has it, where the first of those lines raises. */
module AmiLambda {
  import opened PyValues
  import opened CodePipeline
  import opened Timestamp

  /** The slice of a `describe_instances` reply that `generate_tag` reads. */
  datatype Tag = Tag(key: string, value: string)
  datatype Instance = Instance(tags: Option<seq<Tag>>)   // "Tags" is absent on an untagged instance
  datatype Reservation = Reservation(instances: seq<Instance>)

  /** What the loop variable `tag` holds at the end of `generate_tag`: a Name
      tag's Value string, or a tag mapping left as it was. */
  datatype TagValue = NameValue(name: string) | TagMapping(tag: Tag)

  /** The external calls an invocation makes, in order. */
  datatype Call =
    | DescribeInstances(instanceId: Json)
    | CreateImage(instanceId: Json, name: string, description: string, noReboot: bool)
    | DeregisterImage(imageId: Json)
    | PutJobSuccess(jobId: Json)
    | PutJobFailure(jobId: Json, failureType: string, message: string)

  /** The world outside the handler: the json module, the EC2 describe call,
      whether a call with side effects raises, and the clock. */
  datatype Env = Env(
    json: JsonLib,
    describeInstances: Json -> Result<seq<Reservation>>,
    raises: Call -> Option<Exc>,
    now: Clock)

  datatype Attempt = Attempt(calls: seq<Call>, raised: Option<Exc>)
  datatype Run = Run(calls: seq<Call>, ending: Ending)

  const DESCRIPTION := "Created automatically by Lambda for Backup"

  /** What calling the integer `logging.INFO` raises. */
  const NOT_CALLABLE := "'int' object is not callable"

  const NO_PREFIX := "Cannot generate prefix."

  /** What `"_".join` raises when the prefix is a tag mapping. */
  const JOIN_ERROR := "sequence item 0: expected str instance, dict found"

  // ---------------------------------------------------------------------
  // generate_tag

  /** `tags["Reservations"][0]["Instances"][0]["Tags"]` */
  function TagList(reply: seq<Reservation>): (r: Result<seq<Tag>>)
    ensures r.Ok? <==> |reply| > 0 && |reply[0].instances| > 0 && reply[0].instances[0].tags.Some?
    ensures r.Ok? ==> r.value == reply[0].instances[0].tags.value
  {
    if |reply| == 0 || |reply[0].instances| == 0 then Err(IndexError("list index out of range"))
    else match reply[0].instances[0].tags
      case None => Err(KeyError("Tags"))
      case Some(ts) => Ok(ts)
  }

  /** The value one loop iteration leaves in `tag`. */
  function Rendered(t: Tag): TagValue {
    if t.key == "Name" then NameValue(t.value) else TagMapping(t)
  }

  /** The result of the loop: nothing for no tags, else fixed by the last tag. */
  function LastTagValue(tags: seq<Tag>): (r: Option<TagValue>)
    ensures r.None? <==> tags == []
  {
    if tags == [] then None else Some(Rendered(tags[|tags| - 1]))
  }

  /** `generate_tag`, on the describe reply: each iteration rebinds `tag` to
      the next tag mapping and, for a Name tag, to its Value. */
  method GenerateTag(reply: seq<Reservation>) returns (r: Result<Option<TagValue>>)
    ensures TagList(reply).Err? ==> r == Err(TagList(reply).exc)
    ensures TagList(reply).Ok? ==> r == Ok(LastTagValue(TagList(reply).value))
  {
    var tags :- TagList(reply);
    var tag: Option<TagValue> := None;
    for i := 0 to |tags|
      invariant tag == LastTagValue(tags[..i])
    {
      tag := Some(TagMapping(tags[i]));
      if tags[i].key == "Name" {
        tag := Some(NameValue(tags[i].value));
      }
    }
    assert tags[..|tags|] == tags;
    r := Ok(tag);
  }

  /** Only the last tag counts: whatever precedes it, Name tags included. */
  lemma {:induction false} OnlyLastTagCounts(earlier: seq<Tag>, last: Tag)
    ensures LastTagValue(earlier + [last]) == Some(Rendered(last))
    ensures last.key == "Name" ==> LastTagValue(earlier + [last]) == Some(NameValue(last.value))
    ensures last.key != "Name" ==> LastTagValue(earlier + [last]) == Some(TagMapping(last))
  {
    assert (earlier + [last])[|earlier|] == last;
  }

  // ---------------------------------------------------------------------
  // create_ami, delete_ami

  /** `"_".join([prefix, timestamp])`: only a string prefix can be joined. */
  function ImageName(prefix: TagValue, now: Clock): (r: Result<string>)
    ensures prefix.NameValue? <==> r.Ok?
    ensures r.Ok? ==>
      && |r.value| == |prefix.name| + 16
      && r.value[..|prefix.name|] == prefix.name
      && r.value[|prefix.name|] == '_'
      && r.value[|prefix.name| + 1..] == Strftime(now)
    ensures prefix.TagMapping? ==> r == Err(TypeError(JOIN_ERROR))
  {
    match prefix
    case NameValue(p) =>
      var name := p + "_" + Strftime(now);
      assert name[..|p|] == p && name[|p| + 1..] == Strftime(now);
      Ok(name)
    case TagMapping(_) => Err(TypeError(JOIN_ERROR))
  }

  function Call1(env: Env, prior: seq<Call>, c: Call): Attempt {
    Attempt(prior + [c], env.raises(c))
  }

  /** The image name `create_ami` derives for an instance: describe it,
      take the prefix `generate_tag` leaves, join it with the time stamp. */
  function ImageNameFor(env: Env, instanceId: Json): (r: Result<string>)
    ensures env.describeInstances(instanceId).Err? ==> r == Err(env.describeInstances(instanceId).exc)
  {
    var reply :- env.describeInstances(instanceId);
    var tags :- TagList(reply);
    var prefix :- match LastTagValue(tags) case None => Err(Raised(NO_PREFIX)) case Some(p) => Ok(p);
    ImageName(prefix, env.now)
  }

  /** A name is derived only from a tag list whose last tag is a Name tag,
      and it is that tag's Value, "_" and the time stamp. */
  lemma ImageNameFromLastTag(env: Env, instanceId: Json)
    requires ImageNameFor(env, instanceId).Ok?
    ensures env.describeInstances(instanceId).Ok?
    ensures TagList(env.describeInstances(instanceId).value).Ok?
    ensures var tags := TagList(env.describeInstances(instanceId).value).value;
      && tags != [] && tags[|tags| - 1].key == "Name"
      && ImageNameFor(env, instanceId).value == tags[|tags| - 1].value + "_" + Strftime(env.now)
  {
  }

  /** Lines 104-107 for one instance: describe it, derive the name, create
      the image without rebooting. */
  function CreateFor(env: Env, instanceId: Json): (a: Attempt)
    ensures 1 <= |a.calls| <= 2 && a.calls[0] == DescribeInstances(instanceId)
    ensures forall k :: 0 <= k < |a.calls| ==> !a.calls[k].PutJobSuccess? && !a.calls[k].PutJobFailure?
    ensures |a.calls| == 2 ==>
      && a.calls[1].CreateImage?
      && a.calls[1] == CreateImage(instanceId, a.calls[1].name, "Created automatically by Lambda for Backup", true)
      && a.raised == env.raises(a.calls[1])
    ensures |a.calls| == 1 ==> a.raised.Some?
  {
    var describe := DescribeInstances(instanceId);
    match ImageNameFor(env, instanceId)
    case Err(e) => Attempt([describe], Some(e))
    case Ok(name) => Call1(env, [describe], CreateImage(instanceId, name, DESCRIPTION, true))
  }

  /** The image is created exactly when a name can be derived, and it gets
      that name. */
  lemma CreateUsesDerivedName(env: Env, instanceId: Json)
    ensures var a := CreateFor(env, instanceId);
      && (|a.calls| == 2 <==> ImageNameFor(env, instanceId).Ok?)
      && (|a.calls| == 2 ==> a.calls[1].name == ImageNameFor(env, instanceId).value)
      && (|a.calls| == 1 ==> a.raised == Some(ImageNameFor(env, instanceId).exc))
  {
  }

  /** The `create` branch: read `InstanceId`, then create the image of that
      instance; without the parameter nothing is called. */
  function Create(env: Env, params: Json): (a: Attempt)
    ensures !HasKey(params, "InstanceId") ==> a.calls == [] && a.raised.Some?
    ensures HasKey(params, "InstanceId") ==> a == CreateFor(env, params.fields["InstanceId"])
  {
    match Index(params, "InstanceId")
    case Err(e) => Attempt([], Some(e))
    case Ok(instanceId) => CreateFor(env, instanceId)
  }

  /** The `delete` branch: read `ImageId` and deregister that image. */
  function Delete(env: Env, params: Json): (a: Attempt)
    ensures HasKey(params, "ImageId") ==>
      a.calls == [DeregisterImage(params.fields["ImageId"])] && a.raised == env.raises(a.calls[0])
    ensures !HasKey(params, "ImageId") ==> a.calls == [] && a.raised.Some?
  {
    match Index(params, "ImageId")
    case Err(e) => Attempt([], Some(e))
    case Ok(imageId) => Call1(env, [], DeregisterImage(imageId))
  }

  // ---------------------------------------------------------------------
  // lambda_handler

  /** Job data, UserParameters, `PipelineName` (read, not used further) and
      `Usage`. */
  function Setup(env: Env, event: Json): Result<(Json, Json)> {
    var jobData :- JobData(event);
    var params :- UserParameters(env.json, jobData);
    var pipelineName :- Index(params, "PipelineName");
    var usage :- Index(params, "Usage");
    Ok((params, usage))
  }

  /** The dispatch on `Usage`. */
  function Dispatch(env: Env, params: Json, usage: Json): Attempt {
    if usage == Str("create") then Create(env, params)
    else if usage == Str("delete") then Delete(env, params)
    else Attempt([], Some(Raised("Invalid Usage: " + PyStr(env.json, usage))))
  }

  /** The `try` block with the logging lines as no-ops: dispatch on `Usage`,
      and report success only once the branch went through. */
  function Body(env: Env, jobId: Json, event: Json): Attempt {
    match Setup(env, event)
    case Err(e) => Attempt([], Some(e))
    case Ok((params, usage)) =>
      var branch := Dispatch(env, params, usage);
      if branch.raised.Some? then branch
      else Call1(env, branch.calls, PutJobSuccess(jobId))
  }

  /** The `try` block as written: `logging.INFO` is an int, so calling it right
      after `Usage` is read raises before any dispatch. */
  function BodyAsWritten(env: Env, jobId: Json, event: Json): Attempt {
    match Setup(env, event)
    case Err(e) => Attempt([], Some(e))
    case Ok(_) => Attempt([], Some(TypeError(NOT_CALLABLE)))
  }

  /** `put_job_failure(job_id, e)` */
  function FailureReport(jobId: Json, e: Exc): (c: Call)
    ensures c.PutJobFailure? && c.jobId == jobId && c.failureType == "JobFailed"
    ensures |c.message| == |FUNCTION_EXCEPTION| + |Describe(e)|
    ensures c.message[..|FUNCTION_EXCEPTION|] == "Function exception: " && c.message[|FUNCTION_EXCEPTION|..] == Describe(e)
  {
    PutJobFailure(jobId, JOB_FAILED, FUNCTION_EXCEPTION + Describe(e))
  }

  /** The `except` block and the return; `job_id` unbound makes the `except`
      block itself raise. */
  function Finish(env: Env, jobId: Result<Json>, a: Attempt): (run: Run)
    ensures run.ending.Returned? ==> run.ending.marker == "Complete."
    ensures run.ending.Escaped? ==>
      || (jobId.Err? && run.calls == [])
      || (run.calls != [] && run.calls[|run.calls| - 1].PutJobFailure? &&
          env.raises(run.calls[|run.calls| - 1]) == Some(run.ending.exc))
  {
    match jobId
    case Err(_) => Run([], Escaped(UnboundLocal("job_id")))
    case Ok(id) =>
      match a.raised
      case None => Run(a.calls, Returned("Complete."))
      case Some(e) =>
        var report := FailureReport(id, e);
        Run(a.calls + [report],
            match env.raises(report)
            case None => Returned("Complete.")
            case Some(e2) => Escaped(e2))
  }

  function Handle(event: Json, env: Env): (run: Run)
    ensures run.ending.Returned? ==> run.ending.marker == "Complete."
    ensures run.ending.Escaped? ==>
      || (JobId(event).Err? && run.calls == [])
      || (run.calls != [] && run.calls[|run.calls| - 1].PutJobFailure? &&
          env.raises(run.calls[|run.calls| - 1]) == Some(run.ending.exc))
  {
    var jobId := JobId(event);
    Finish(env, jobId, if jobId.Ok? then Body(env, jobId.value, event) else Attempt([], None))
  }

  /** As written, the only call the handler ever makes is a failure report. */
  function HandleAsWritten(event: Json, env: Env): (run: Run)
    ensures |run.calls| <= 1
    ensures forall k :: 0 <= k < |run.calls| ==> run.calls[k].PutJobFailure?
  {
    var jobId := JobId(event);
    Finish(env, jobId, if jobId.Ok? then BodyAsWritten(env, jobId.value, event) else Attempt([], None))
  }

  ghost predicate CallsSucceed(env: Env) {
    forall c :: env.raises(c) == None
  }

  // ---------------------------------------------------------------------
  // Properties

  /** The UserParameters of a well-formed invocation, with its Usage. */
  ghost predicate Invoked(event: Json, env: Env, jobId: Json, params: Json, usage: Json) {
    && JobId(event) == Ok(jobId)
    && JobData(event).Ok?
    && UserParameters(env.json, JobData(event).value) == Ok(params)
    && HasKey(params, "PipelineName")
    && Index(params, "Usage") == Ok(usage)
  }

  /** An exception after `job_id` is bound leads to exactly one failure
      report with "Function exception: " and the exception's text. */
  lemma FailureReported(env: Env, jobId: Json, a: Attempt)
    requires a.raised.Some?
    requires env.raises(FailureReport(jobId, a.raised.value)) == None
    ensures Finish(env, Ok(jobId), a) ==
      Run(a.calls + [PutJobFailure(jobId, "JobFailed", "Function exception: " + Describe(a.raised.value))],
          Returned("Complete."))
  {
  }

  /** `Handle` for a `try` block that raised, with the report's message. */
  lemma FailsWith(event: Json, env: Env, jobId: Json, a: Attempt, message: string)
    requires JobId(event) == Ok(jobId)
    requires Body(env, jobId, event) == a && a.raised.Some?
    requires FUNCTION_EXCEPTION + Describe(a.raised.value) == message
    requires CallsSucceed(env)
    ensures Handle(event, env) == Run(a.calls + [PutJobFailure(jobId, "JobFailed", message)], Returned("Complete."))
  {
    assert Handle(event, env) == Finish(env, Ok(jobId), a);
    FailureReported(env, jobId, a);
  }

  /** Without a job id nothing is reported and the handler does not return. */
  lemma MissingJobIdEscapes(event: Json, env: Env)
    requires JobId(event).Err?
    ensures Handle(event, env) == Run([], Escaped(UnboundLocal("job_id")))
    ensures HandleAsWritten(event, env) == Run([], Escaped(UnboundLocal("job_id")))
  {
  }

  /** As written, no invocation reaches EC2: once `PipelineName` and `Usage`
      are read, the `logging.INFO` call fails the job. */
  lemma AsWrittenNeverDispatches(event: Json, env: Env, jobId: Json, params: Json, usage: Json)
    requires Invoked(event, env, jobId, params, usage)
    requires CallsSucceed(env)
    ensures HandleAsWritten(event, env) ==
      Run([PutJobFailure(jobId, "JobFailed", FUNCTION_EXCEPTION + NOT_CALLABLE)], Returned("Complete."))
  {
    var a := Attempt([], Some(TypeError(NOT_CALLABLE)));
    assert BodyAsWritten(env, jobId, event) == a by {
      assert Setup(env, event) == Ok((params, usage));
    }
    FailureReported(env, jobId, a);
  }

  /** `PipelineName` and `Usage` are both required: without either, the job
      fails with the KeyError's text before any EC2 call. */
  lemma MissingKeyFails(event: Json, env: Env, jobId: Json, params: Json, key: string)
    requires JobId(event) == Ok(jobId)
    requires JobData(event).Ok?
    requires UserParameters(env.json, JobData(event).value) == Ok(params)
    requires key == "PipelineName" || key == "Usage"
    requires params.Obj? && key !in params.fields
    requires (key == "Usage" ==> "PipelineName" in params.fields)
    requires CallsSucceed(env)
    ensures Handle(event, env) ==
      Run([PutJobFailure(jobId, "JobFailed", FUNCTION_EXCEPTION + Describe(KeyError(key)))], Returned("Complete."))
  {
    var a := Attempt([], Some(KeyError(key)));
    assert Body(env, jobId, event) == a by {
      assert Setup(env, event) == Err(KeyError(key));
    }
    FailsWith(event, env, jobId, a, FUNCTION_EXCEPTION + Describe(KeyError(key)));
  }

  /** `create` needs `InstanceId`. */
  lemma CreateNeedsInstanceId(event: Json, env: Env, jobId: Json, params: Json)
    requires Invoked(event, env, jobId, params, Str("create"))
    requires !HasKey(params, "InstanceId")
    requires CallsSucceed(env)
    ensures Handle(event, env) ==
      Run([PutJobFailure(jobId, "JobFailed", FUNCTION_EXCEPTION + Describe(KeyError("InstanceId")))], Returned("Complete."))
  {
    assert Setup(env, event) == Ok((params, Str("create")));
    var a := Attempt([], Some(KeyError("InstanceId")));
    assert Body(env, jobId, event) == a;
    FailsWith(event, env, jobId, a, FUNCTION_EXCEPTION + Describe(KeyError("InstanceId")));
  }

  /** An instance without a "Tags" entry fails the job with the KeyError's
      text before any prefix is derived: no image is created. */
  lemma UntaggedInstanceFails(event: Json, env: Env, jobId: Json, params: Json, instanceId: Json, reply: seq<Reservation>)
    requires Invoked(event, env, jobId, params, Str("create"))
    requires Index(params, "InstanceId") == Ok(instanceId)
    requires env.describeInstances(instanceId) == Ok(reply)
    requires |reply| > 0 && |reply[0].instances| > 0 && reply[0].instances[0].tags.None?
    requires CallsSucceed(env)
    ensures Handle(event, env) ==
      Run([DescribeInstances(instanceId), PutJobFailure(jobId, "JobFailed", "Function exception: 'Tags'")],
          Returned("Complete."))
  {
    var a := Attempt([DescribeInstances(instanceId)], Some(KeyError("Tags")));
    assert Create(env, params) == a;
    assert Body(env, jobId, event) == a by {
      assert Setup(env, event) == Ok((params, Str("create")));
    }
    assert FUNCTION_EXCEPTION + Describe(KeyError("Tags")) == "Function exception: 'Tags'";
    FailsWith(event, env, jobId, a, FUNCTION_EXCEPTION + Describe(KeyError("Tags")));
  }

  /** An instance with an empty tag list yields no prefix, and the job fails
      with "Cannot generate prefix.". */
  lemma NoTagsNoPrefix(event: Json, env: Env, jobId: Json, params: Json, instanceId: Json, reply: seq<Reservation>)
    requires Invoked(event, env, jobId, params, Str("create"))
    requires Index(params, "InstanceId") == Ok(instanceId)
    requires env.describeInstances(instanceId) == Ok(reply)
    requires TagList(reply) == Ok([])
    requires CallsSucceed(env)
    ensures Handle(event, env) ==
      Run([DescribeInstances(instanceId), PutJobFailure(jobId, "JobFailed", FUNCTION_EXCEPTION + NO_PREFIX)],
          Returned("Complete."))
  {
    var a := Attempt([DescribeInstances(instanceId)], Some(Raised(NO_PREFIX)));
    assert Create(env, params) == a by {
      assert LastTagValue([]) == None;
    }
    assert Body(env, jobId, event) == a by {
      assert Setup(env, event) == Ok((params, Str("create")));
    }
    FailsWith(event, env, jobId, a, FUNCTION_EXCEPTION + NO_PREFIX);
  }

  /** When the last tag is a Name tag, the image is named after its Value and
      the clock, created with NoReboot and the fixed description, and then
      the job succeeds. */
  lemma CreateNamesImageAfterLastTag(event: Json, env: Env, jobId: Json, params: Json, instanceId: Json,
                                     reply: seq<Reservation>, earlier: seq<Tag>, name: string)
    requires Invoked(event, env, jobId, params, Str("create"))
    requires Index(params, "InstanceId") == Ok(instanceId)
    requires env.describeInstances(instanceId) == Ok(reply)
    requires TagList(reply) == Ok(earlier + [Tag("Name", name)])
    requires CallsSucceed(env)
    ensures Handle(event, env) ==
      Run([DescribeInstances(instanceId),
           CreateImage(instanceId, name + "_" + Strftime(env.now), "Created automatically by Lambda for Backup", true),
           PutJobSuccess(jobId)],
          Returned("Complete."))
  {
    OnlyLastTagCounts(earlier, Tag("Name", name));
    var imageName := name + "_" + Strftime(env.now);
    assert ImageNameFor(env, instanceId) == Ok(imageName) by {
      assert ImageName(NameValue(name), env.now) == Ok(imageName);
    }
    var create := CreateImage(instanceId, imageName, DESCRIPTION, true);
    var branch := Attempt([DescribeInstances(instanceId), create], None);
    assert Create(env, params) == branch;
    assert Body(env, jobId, event) == Attempt(branch.calls + [PutJobSuccess(jobId)], None) by {
      assert Setup(env, event) == Ok((params, Str("create")));
      assert Dispatch(env, params, Str("create")) == branch;
    }
  }

  /** When the last tag is not a Name tag, `generate_tag` hands back that tag
      mapping, the name cannot be joined and the job fails, however many Name
      tags came before: no image is created. */
  lemma OtherLastTagFailsCreate(event: Json, env: Env, jobId: Json, params: Json, instanceId: Json,
                                reply: seq<Reservation>, earlier: seq<Tag>, last: Tag)
    requires Invoked(event, env, jobId, params, Str("create"))
    requires Index(params, "InstanceId") == Ok(instanceId)
    requires env.describeInstances(instanceId) == Ok(reply)
    requires TagList(reply) == Ok(earlier + [last])
    requires last.key != "Name"
    requires CallsSucceed(env)
    ensures Handle(event, env) ==
      Run([DescribeInstances(instanceId),
           PutJobFailure(jobId, "JobFailed", FUNCTION_EXCEPTION + JOIN_ERROR)],
          Returned("Complete."))
  {
    OnlyLastTagCounts(earlier, last);
    var a := Attempt([DescribeInstances(instanceId)], Some(TypeError(JOIN_ERROR)));
    assert Body(env, jobId, event) == a by {
      assert Create(env, params) == a;
      assert Setup(env, event) == Ok((params, Str("create")));
    }
    FailsWith(event, env, jobId, a, FUNCTION_EXCEPTION + JOIN_ERROR);
  }

  /** `delete` deregisters exactly the `ImageId` image, then succeeds. */
  lemma DeleteDeregistersImage(event: Json, env: Env, jobId: Json, params: Json, imageId: Json)
    requires Invoked(event, env, jobId, params, Str("delete"))
    requires Index(params, "ImageId") == Ok(imageId)
    requires CallsSucceed(env)
    ensures Handle(event, env) == Run([DeregisterImage(imageId), PutJobSuccess(jobId)], Returned("Complete."))
  {
    assert Setup(env, event) == Ok((params, Str("delete")));
  }

  /** `delete` needs `ImageId`: without it no image is deregistered. */
  lemma DeleteNeedsImageId(event: Json, env: Env, jobId: Json, params: Json)
    requires Invoked(event, env, jobId, params, Str("delete"))
    requires !HasKey(params, "ImageId")
    requires CallsSucceed(env)
    ensures Handle(event, env) ==
      Run([PutJobFailure(jobId, "JobFailed", "Function exception: 'ImageId'")], Returned("Complete."))
  {
    assert Setup(env, event) == Ok((params, Str("delete")));
    var a := Attempt([], Some(KeyError("ImageId")));
    assert Body(env, jobId, event) == a;
    assert FUNCTION_EXCEPTION + Describe(KeyError("ImageId")) == "Function exception: 'ImageId'";
    FailsWith(event, env, jobId, a, FUNCTION_EXCEPTION + Describe(KeyError("ImageId")));
  }

  /** Any other Usage fails the job with "Invalid Usage: " and the value. */
  lemma InvalidUsageFails(event: Json, env: Env, jobId: Json, params: Json, usage: Json)
    requires Invoked(event, env, jobId, params, usage)
    requires usage != Str("create") && usage != Str("delete")
    requires CallsSucceed(env)
    ensures Handle(event, env) ==
      Run([PutJobFailure(jobId, "JobFailed", FUNCTION_EXCEPTION + ("Invalid Usage: " + PyStr(env.json, usage)))],
          Returned("Complete."))
  {
    var a := Attempt([], Some(Raised("Invalid Usage: " + PyStr(env.json, usage))));
    assert Body(env, jobId, event) == a by {
      assert Setup(env, event) == Ok((params, usage));
    }
    FailsWith(event, env, jobId, a, FUNCTION_EXCEPTION + ("Invalid Usage: " + PyStr(env.json, usage)));
  }

  /** A success report comes right after a CreateImage or DeregisterImage
      that did not raise, and there is at most one. */
  ghost predicate SuccessFollowsBranch(env: Env, calls: seq<Call>) {
    forall k :: 0 <= k < |calls| && calls[k].PutJobSuccess? ==>
      && 0 < k
      && (calls[k - 1].CreateImage? || calls[k - 1].DeregisterImage?)
      && env.raises(calls[k - 1]) == None
      && forall j :: 0 <= j < |calls| && j != k ==> !calls[j].PutJobSuccess?
  }

  /** Success is reported only after the chosen branch went through. */
  lemma SuccessOnlyAfterBranch(event: Json, env: Env)
    ensures SuccessFollowsBranch(env, Handle(event, env).calls)
  {
    var jobId := JobId(event);
    if jobId.Ok? {
      var a := Body(env, jobId.value, event);
      BodySuccessShape(env, jobId.value, event);
      SuccessSurvivesFinish(env, jobId.value, a);
    }
  }

  /** The `except` block adds no success report. */
  lemma SuccessSurvivesFinish(env: Env, id: Json, a: Attempt)
    requires SuccessFollowsBranch(env, a.calls)
    ensures SuccessFollowsBranch(env, Finish(env, Ok(id), a).calls)
  {
    if a.raised.Some? {
      var report := FailureReport(id, a.raised.value);
      assert forall j :: 0 <= j < |a.calls| ==> (a.calls + [report])[j] == a.calls[j];
    }
  }

  lemma BodySuccessShape(env: Env, id: Json, event: Json)
    ensures SuccessFollowsBranch(env, Body(env, id, event).calls)
  {
    match Setup(env, event)
    case Err(e) =>
    case Ok((params, usage)) =>
      var branch := Dispatch(env, params, usage);
      DispatchShape(env, params, usage);
      SuccessAfterShapedBranch(env, id, branch);
  }

  lemma SuccessAfterShapedBranch(env: Env, id: Json, branch: Attempt)
    requires BranchShaped(env, branch)
    ensures SuccessFollowsBranch(env, (if branch.raised.Some? then branch else Call1(env, branch.calls, PutJobSuccess(id))).calls)
  {
    if branch.raised.None? {
      var calls := branch.calls + [PutJobSuccess(id)];
      assert forall j :: 0 <= j < |branch.calls| ==> calls[j] == branch.calls[j];
    }
  }

  lemma DispatchShape(env: Env, params: Json, usage: Json)
    ensures BranchShaped(env, Dispatch(env, params, usage))
  {
    if usage == Str("create") {
      CreateShape(env, params);
    } else if usage == Str("delete") {
      DeleteShape(env, params);
    }
  }

  /** A branch's calls contain no report; if the branch went through, its
      last call is its own EC2 call, which did not raise. */
  ghost predicate BranchShaped(env: Env, branch: Attempt) {
    && (forall j :: 0 <= j < |branch.calls| ==> !branch.calls[j].PutJobSuccess? && !branch.calls[j].PutJobFailure?)
    && (branch.raised.None? ==>
          && branch.calls != []
          && (branch.calls[|branch.calls| - 1].CreateImage? || branch.calls[|branch.calls| - 1].DeregisterImage?)
          && env.raises(branch.calls[|branch.calls| - 1]) == None)
  }

  lemma CreateShape(env: Env, params: Json)
    ensures BranchShaped(env, Create(env, params))
  {
  }

  lemma DeleteShape(env: Env, params: Json)
    ensures BranchShaped(env, Delete(env, params))
  {
  }
}
