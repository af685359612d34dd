# Pipeline-stage Lambda handlers, modelled in Dafny

This project models the decision logic of three small AWS automation scripts.
Every AWS SDK call is replaced by an oracle that is passed in, and so are the
`json` module and the clock:

- **Image-build poll driver** (`bin/invoke_image_builder.py`). Each CodePipeline
  invocation is one call of `ImageBuilder.Handle`. Without a continuation token
  it starts an Image Builder pipeline and asks to be called again, with the new
  build's ARN wrapped in a token. With a token it polls that build. `AVAILABLE`
  is reported as success, `FAILED` as failure ("Build Error"), and any other
  status as another continuation with the same ARN. Every exception raised once
  the job id is bound becomes one failure report,
  `"Function exception: " + str(err)`.
- **AMI create/delete stage** (`bin/create_delete_ami.py`). `AmiLambda.Handle`
  dispatches on the `Usage` user parameter. `create` names an image after the
  instance's tag and the time stamp `%Y%m%d-%H%M%S`. `delete` deregisters an
  image. Any other usage fails the job. `AmiLambda.GenerateTag` is the tag loop
  as written: its result depends only on the last tag.
- **Paginated key listing** (`bin/get_file.py`).
  `S3Listing.FetchS3Object.FetchObjects` follows `list_objects_v2`
  continuation tokens through a bucket, given as a finite chain of pages. The
  client may refuse any request with an error of its own. The method yields
  the requests it sent, the keys it printed and the exception it raised.

Each handler is a total function from an event and an environment `Env` to a
`Run`. A `Run` is the list of external calls made, in order, and how the
handler ended. It either returned its completion marker, or an exception
escaped it.

Three behaviours of the code that a reader might not expect:

- `imageBuildVersionArn` is read (bin/invoke_image_builder.py:46) before the
  token branch (line 52). So every invocation needs it, continuations
  included.
- If the job id is missing, the `except` block reads the unbound `job_id`
  (bin/invoke_image_builder.py:84, bin/create_delete_ami.py:122). The
  `UnboundLocalError` escapes, no report is made, and the completion marker
  is not returned.
- `fetch_objects` prints the keys and returns `None`
  (bin/get_file.py:19-25). The repository's test expects it to return
  `[key]` for a one-object bucket (bin/tests/test_get_file.py:27).
  `S3Listing.FetchOneObject` states both halves: the printed sequence is
  `[key]`, and the returned value is `None`.

## Model

| member | source | states |
|---|---|---|
| `CodePipeline.Event` | bin/invoke_image_builder.py:39-53 | the event the orchestrator sends: its job id, its UserParameters text and, on re-invocation only, the `continuationToken`, all found where the handlers look for them |
| `PyValues.Describe` | bin/create_delete_ami.py:33 | `str(err)`: a KeyError prints its key between single quotes, and `Exception(text)` prints its text |
| `ImageBuilder.Classify` | bin/invoke_image_builder.py:65-71 | a status is Available exactly when it is "AVAILABLE", Failed exactly when it is "FAILED", and otherwise Pending with the status unchanged |
| `ImageBuilder.DecodeToken` | bin/invoke_image_builder.py:53-54 | succeeds exactly when the token is a string that parses to a mapping holding "ImageBuildVersionArn", and then gives that value; a non-string token fails |
| `ImageBuilder.ExceptReport` | bin/invoke_image_builder.py:29-34 | the `except` block's call is a failure report for the job, of type "JobFailed", whose message is "Function exception: " followed by str(err) |
| `ImageBuilder.Handle` | bin/invoke_image_builder.py:37-87 | `lambda_handler`: when it returns, it returns "Complete"; an exception escapes only when the job id is missing (no calls at all) or when the final failure report itself raised |
| `ImageBuilder.MissingJobIdEscapes` | bin/invoke_image_builder.py:37-87 | without a job id, no call is made and `UnboundLocalError("job_id")` escapes; with one, the last call is always a report, and the handler escapes only if that report raised |
| `ImageBuilder.OneReportPerInvocation` | bin/invoke_image_builder.py:37-87 | when report calls succeed, an invocation with a job id makes one or two calls, exactly one of them a report, that report last, and returns "Complete" |
| `ImageBuilder.BodyWhenReportsSucceed` | bin/invoke_image_builder.py:38-79 | the `try` block either ends with its one report, or raises before any report, after at most one Image Builder call |
| `ImageBuilder.StartsBuildOnce` | bin/invoke_image_builder.py:72-79 | with no continuation token, exactly one start call with the `imageBuildVersionArn` parameter, then one continuation whose token encodes the returned build ARN |
| `ImageBuilder.TokenRoundTrip` | bin/invoke_image_builder.py:20-25 | the token `EncodeToken` writes, `json.dumps({"ImageBuildVersionArn": arn})`, decodes back to `arn` through `DecodeToken`, given that `json.loads` undoes `json.dumps` |
| `ImageBuilder.PollsTheStartedBuild` | bin/invoke_image_builder.py:52-61 | re-invoked with the token the first invocation issued, the handler's first call polls exactly the build that was started |
| `ImageBuilder.PolledRun` | bin/invoke_image_builder.py:53-71 | a continuation invocation polls the token's ARN and then makes exactly the report its classified status calls for |
| `ImageBuilder.AvailableSucceeds` | bin/invoke_image_builder.py:65-66 | AVAILABLE: the calls are the poll and one success report, with no failure and no continuation |
| `ImageBuilder.FailedReportsBuildError` | bin/invoke_image_builder.py:67-69 | FAILED: the calls are the poll and one failure report of type "JobFailed" with message "Build Error" |
| `ImageBuilder.OtherStatusContinues` | bin/invoke_image_builder.py:70-71 | any other status: the calls are the poll and one continuation carrying the same ARN, never success or failure |
| `ImageBuilder.MissingPipelineArnFails` | bin/invoke_image_builder.py:43-52 | without `imageBuildVersionArn`, even a continuation invocation makes no Image Builder call and fails with "Function exception: 'imageBuildVersionArn'" |
| `ImageBuilder.ExceptionReported` | bin/invoke_image_builder.py:81-87 | once `job_id` is bound, anything raised ends in one failure report "Function exception: " + str(err), and then "Complete" is returned unless that report raises |
| `Timestamp.Digits` | bin/create_delete_ami.py:47 | zero-padded decimal field: the given width, digits only, and it reads back as the number |
| `Timestamp.Strftime` | bin/create_delete_ami.py:47 | `%Y%m%d-%H%M%S` is 15 characters long, with a '-' at position 8 and digits everywhere else |
| `Timestamp.StrftimeRoundTrip` | bin/create_delete_ami.py:47 | the stamp parses back to the clock reading it was made from |
| `AmiLambda.TagList` | bin/create_delete_ami.py:69 | `["Reservations"][0]["Instances"][0]["Tags"]` succeeds exactly when the first instance of the first reservation has a tag list, and then gives that list |
| `AmiLambda.LastTagValue` | bin/create_delete_ami.py:67-73 | the loop's result is None exactly when the `Tags` list is empty |
| `AmiLambda.GenerateTag` | bin/create_delete_ami.py:58-73 | the loop that rebinds `tag` returns the lookup's error, or the value fixed by the last tag (None for no tags) |
| `AmiLambda.OnlyLastTagCounts` | bin/create_delete_ami.py:69-71 | whatever tags come first, Name tags included, the last tag decides: its Value if its key is "Name", otherwise the tag mapping itself |
| `AmiLambda.ImageName` | bin/create_delete_ami.py:47 | a string prefix gives `prefix + "_" + stamp`, 16 characters longer than the prefix; a tag mapping cannot be joined and raises TypeError |
| `AmiLambda.ImageNameFor` | bin/create_delete_ami.py:104-107 | the image name the create branch derives; an error of the describe call is passed on unchanged |
| `AmiLambda.ImageNameFromLastTag` | bin/create_delete_ami.py:47-73 | a name is derived only when the instance's `Tags` list is non-empty and its last tag is a Name tag, and the name is that tag's Value, "_" and the time stamp |
| `AmiLambda.CreateFor` | bin/create_delete_ami.py:104-107 | the describe call comes first; at most one more call follows, a `create_image` of that instance with the fixed description and NoReboot=True; no report is made here |
| `AmiLambda.CreateUsesDerivedName` | bin/create_delete_ami.py:40-55 | the image is created exactly when a name can be derived, and under that name; otherwise the derivation's error is raised |
| `AmiLambda.Create` | bin/create_delete_ami.py:101-107 | without `InstanceId`, no call is made and an exception is raised; with it, the branch is the create of that instance |
| `AmiLambda.Delete` | bin/create_delete_ami.py:109-112 | with `ImageId`, the only call is the deregistration of exactly that image, which raises as the service does; without it, no call and an exception |
| `AmiLambda.FailureReport` | bin/create_delete_ami.py:23-37 | `put_job_failure`: a report for the job, of type "JobFailed", whose message is "Function exception: " followed by str(err) |
| `AmiLambda.Finish` | bin/create_delete_ami.py:121-124 | the `except` block and the return: the handler returns "Complete." unless the job id was missing (no calls) or the failure report itself raised |
| `AmiLambda.Handle` | bin/create_delete_ami.py:88-124 | `lambda_handler` with the logging lines as no-ops: when it returns, it returns "Complete."; an exception escapes only when the job id is missing or the final failure report raised |
| `AmiLambda.HandleAsWritten` | bin/create_delete_ami.py:88-124 | `lambda_handler` as written: it makes at most one call, and that call is a failure report |
| `AmiLambda.FailureReported` | bin/create_delete_ami.py:121-122 | an exception after `job_id` is bound gives one report "Function exception: " + str(e) of type "JobFailed", and "Complete." is returned |
| `AmiLambda.FailsWith` | bin/create_delete_ami.py:88-124 | a `try` block that raised ends the whole invocation with its calls and then that one failure report |
| `AmiLambda.MissingJobIdEscapes` | bin/create_delete_ami.py:90 | without a job id, in both versions of the handler, no call is made and `UnboundLocalError("job_id")` escapes |
| `AmiLambda.AsWrittenNeverDispatches` | bin/create_delete_ami.py:97-100 | as written, once `PipelineName` and `Usage` are read, calling `logging.INFO` fails the job before any EC2 call |
| `AmiLambda.MissingKeyFails` | bin/create_delete_ami.py:97-98 | a missing `PipelineName` or `Usage` fails the job with the KeyError's text, before any EC2 call |
| `AmiLambda.CreateNeedsInstanceId` | bin/create_delete_ami.py:101-102 | `create` without `InstanceId` fails with "Function exception: 'InstanceId'" |
| `AmiLambda.UntaggedInstanceFails` | bin/create_delete_ami.py:69 | an instance without a `Tags` entry fails the job with "Function exception: 'Tags'" right after the describe call; no image is created |
| `AmiLambda.NoTagsNoPrefix` | bin/create_delete_ami.py:104-106 | an instance with an empty `Tags` list gives no prefix; the job fails with "Function exception: Cannot generate prefix." and no image is created |
| `AmiLambda.CreateNamesImageAfterLastTag` | bin/create_delete_ami.py:101-107 | when the last tag is a Name tag, `create_image` is called once, with the instance, `value + "_" + stamp`, the fixed description and NoReboot=True, and then success is reported |
| `AmiLambda.OtherLastTagFailsCreate` | bin/create_delete_ami.py:67-73 | when the last tag is not a Name tag, no image is created and the job fails with the join's TypeError, however many Name tags came before |
| `AmiLambda.DeleteDeregistersImage` | bin/create_delete_ami.py:109-112 | `delete` deregisters exactly the `ImageId` image, then reports success |
| `AmiLambda.DeleteNeedsImageId` | bin/create_delete_ami.py:109-110 | `delete` without `ImageId`: the only call is the report "Function exception: 'ImageId'", nothing is deregistered, and "Complete." is returned |
| `AmiLambda.InvalidUsageFails` | bin/create_delete_ami.py:114-115 | any other `Usage` fails with "Function exception: Invalid Usage: " + str(usage), with no EC2 call |
| `AmiLambda.SuccessOnlyAfterBranch` | bin/create_delete_ami.py:117-119 | in every run there is at most one success report, and it comes right after a create or deregister call that did not raise |
| `S3Listing.PageWithToken` | bin/get_file.py:16-18 | finds the page that handed out a token, so that the next page can be served; None exactly when no page before the last carries it |
| `S3Listing.S3Client.ListObjectsV2` | bin/get_file.py:14-18 | a request the service refuses raises the service's error; otherwise an unknown bucket raises NoSuchBucket, and a request without a token gets the first page |
| `S3Listing.Request` | bin/get_file.py:11-18 | the first request carries no token, and every later one carries exactly the token of the page before it |
| `S3Listing.RequestAnswered` | bin/get_file.py:13-18 | in a well-formed listing, the k-th request, unless refused, is answered with the k-th page |
| `S3Listing.NoRequestRepeated` | bin/get_file.py:22-23 | the loop never sends the same request twice |
| `S3Listing.AllKeysAppend` | bin/get_file.py:19-21 | reading one more page appends its keys, in order, to the keys printed so far |
| `S3Listing.NextRequest` | bin/get_file.py:13-18 | the request built from `next_token` is the next request of the listing, and unless refused it is answered with the next page |
| `S3Listing.RefusedStops` | bin/get_file.py:14-18 | a refused request ends the listing with the service's error, after the keys of every earlier page were printed |
| `S3Listing.BarePageStops` | bin/get_file.py:19 | a response without "Contents" ends the listing with KeyError('Contents'), after the keys of every earlier page were printed |
| `S3Listing.LastPageStops` | bin/get_file.py:22-25 | the first response without NextContinuationToken ends the loop with every key printed |
| `S3Listing.PageAdvances` | bin/get_file.py:16-23 | a page with keys and a token moves on: the next request carries exactly that token |
| `S3Listing.FetchS3Object.constructor` | bin/get_file.py:5-8 | the object holds the bucket name and the client it is given |
| `S3Listing.FetchS3Object.FetchObjects` | bin/get_file.py:10-25 | the requests are the listing's first requests: the first without a token, each later one with the previous page's token. Every request but the last got a page with "Contents". The last was refused (its error is raised), or got a page without "Contents" (KeyError), or got the final page (nothing raised, every key printed). Otherwise the printed keys are those of the pages before the last request, in order. The return value is None |
| `S3Listing.FetchOneObject` | bin/tests/test_get_file.py:11-27 | for a bucket with one object, the key is printed, but the result is None and not the `[key]` the test expects |

## Left out

- boto3 itself: the `codepipeline`, `imagebuilder`, `ec2` and `s3` clients are
  oracles in `Env` or in `S3Client`. Every call the handlers make may raise
  an arbitrary exception: `Env.raises` for calls with side effects, a `Result`
  for the calls whose answer is read, and `S3Client.refuses` for any listing
  request. That includes what happens because `bin/create_delete_ami.py`
  calls `describe_instances` and `create_image` on an EC2 *resource*. The
  model does not say which error a real client raises.
- JSON: `json.loads`, `json.dumps` and `str()` of non-string values are the
  `JsonLib` oracle. A parse error is an `Err` that takes the failure path.
  `ImageBuilder.TokenRoundTrip` assumes that `loads` undoes `dumps` on the
  token object.
- The continuation token is passed as the keyword `continuation_token=`. The
  model treats it as an abstract "report continuation" call. Whether the SDK
  accepts that keyword is not modelled.
- Logging, `traceback.print_exc()` and the f-strings that feed them are
  no-ops. The exception is `logging.INFO(...)` in `bin/create_delete_ami.py`;
  see Findings.
- `datetime.now()` is the `now` field of the environment, a valid clock
  reading with a four-digit year. Time zones are not modelled.
- The `context` argument of both handlers is never read, so it is left out.
- The orchestrator's scheduling, retries and timeouts are not modelled. One
  invocation is one call of `Handle`.
- `bin/sample.py` is a module-level script with live calls. Its tag loop
  repeats `generate_tag`, so it is not part of this model.
- `S3Listing.FetchS3Object.FetchObjects`: requires a well-formed listing. That
  is a finite chain of pages where only the last lacks a token, and where
  tokens are non-empty and never repeat. On any other page source the Python
  loop may not terminate, and the model does not cover those sources.
- `bin/get_file.py` lines 28-30 (the `__main__` block) are not modelled.

## Findings

| source | as written | input that shows it | evidently intended | confidence | as-written member | corrected member |
|---|---|---|---|---|---|---|
| bin/create_delete_ami.py:100 | `logging.INFO(...)` calls the integer level constant, which raises TypeError "'int' object is not callable" | any event with a job id, UserParameters holding `PipelineName` and `Usage`, e.g. `{"PipelineName": "p", "Usage": "delete", "ImageId": "ami-1"}`: the job fails and no image is deregistered | `logging.info(...)`: log, then dispatch on `Usage` | high (not executed) | `AmiLambda.AsWrittenNeverDispatches` | `AmiLambda.DeleteDeregistersImage` |

`AmiLambda.HandleAsWritten` is the handler as written. `AmiLambda.Handle` is
the corrected handler, with the logging lines as no-ops. All the dispatch
properties above are proved about `AmiLambda.Handle`.
