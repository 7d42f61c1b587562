# Glue job-failure notifier: a Dafny model of the Lambda handler

The repository deploys an AWS pipeline. A Glue job fails, an EventBridge rule
forwards the "Glue Job State Change" event to a Python Lambda function, and that
function publishes an e-mail notification to an SNS topic. The only runtime
logic is the handler in `lib/lambda_scripts_dir/sns_lambda.py`. This project
models it as a pure function:

    Handle(event, env): Outcome
    Outcome = Raised(KeyError(key) | TypeError | AttributeError) | NoPublish | Publish(topicArn, subject, message)

- `event` is the decoded JSON the function receives (`JsonValue.Value`: a
  string, a dictionary, or any other value).
- `env` is the process environment, as a map.
- `Publish` stands for the single `client.publish` call, with its three
  arguments.

The handler's exact behaviour is modelled:

- **Read order.** `SnsLambda.Project` reads `event['detail']`, then the
  detail's `jobName`, `state`, `jobRunId` and `message`, then `event['time']`
  and `event['id']`. The first absent key raises `KeyError`. Subscripting a
  value that is not a dictionary raises `TypeError`.
- **Filter.** The handler publishes only when `jobName.startswith('job-')` and
  `jobRunId.endswith('_attempt_1')` both hold. Python's `&` calls both
  methods, so a non-string run id raises `AttributeError` even when the job
  name already fails its test.
- **Subject.** It is `"AWS Glue job has failed: "` followed by the job name.
- **Body.** It is the template transcribed line by line. `Strings.JoinLines`
  joins the 21 template lines with newlines, which gives exactly the
  f-string's text.
- **Topic.** The target is `os.environ['SNS_TOPIC_ARN']`, or
  `"SNS TOPIC NOT FOUND"` when that variable is absent.

`SnsCdkStack` models the part of `lib/sns-cdk-stack.ts` that constrains the
handler's inputs:

- the EventBridge rule's event pattern, as the predicate `RuleMatches`;
- the deployed job's name, `job-glue-test`;
- the environment the stack gives the function.

Each invocation publishes at most once. `Outcome` has a single `Publish`
case, and the handler's return value is always None. The publish response is
discarded, so the model does not represent it.

The code has no deduplication, no retries and no per-subscriber delivery.
The only state filter is the EventBridge rule's (lib/sns-cdk-stack.ts:99-103),
and SNS itself delivers to the two e-mail subscriptions
(lib/sns-cdk-stack.ts:70-80).

## Model

| member | source | states |
|---|---|---|
| Strings.StartsWith | lib/lambda_scripts_dir/sns_lambda.py:78 | definition of Python's `str.startswith`, characterised by StartsWithIffPrefix |
| Strings.EndsWith | lib/lambda_scripts_dir/sns_lambda.py:78 | definition of Python's `str.endswith`, characterised by EndsWithIffSuffix |
| Strings.JoinLines | lib/lambda_scripts_dir/sns_lambda.py:35-55 | definition of a triple-quoted template as its lines joined by newlines; specified by LineOfJoinLines |
| Strings.StartsWithIffPrefix | lib/lambda_scripts_dir/sns_lambda.py:78 | `startswith(p)` holds exactly when the string is p followed by some rest |
| Strings.EndsWithIffSuffix | lib/lambda_scripts_dir/sns_lambda.py:78 | `endswith(p)` holds exactly when the string is some front followed by p |
| Strings.LineOfJoinLines | lib/lambda_scripts_dir/sns_lambda.py:35-55 | every line of a newline-joined template is a whole line of the result: it starts the text or follows a newline, and ends the text or precedes a newline |
| SnsLambda.Handle | lib/lambda_scripts_dir/sns_lambda.py:64-81 | definition of `lambda_handler`; specified by PublishIffFilterPasses, KeyErrorIsFirstAbsentField, KeyErrorNamesAbsentField, RaisedErrorKind, BothTestsAreEvaluated and the frame lemmas below |
| SnsLambda.Project | lib/lambda_scripts_dir/sns_lambda.py:66-74 | the six reads succeed exactly when every field the handler reads is present (`AllPresent`); which error a failing read raises is stated by KeyErrorIsFirstAbsentField and RaisedErrorKind |
| SnsLambda.TopicArn | lib/lambda_scripts_dir/sns_lambda.py:14-18 | definition of the topic lookup with its fallback; specified by TopicIsConfiguredArn and TopicIgnoresOtherVariables |
| SnsLambda.Subject | lib/lambda_scripts_dir/sns_lambda.py:33 | definition of the subject; specified by SubjectNamesJob, JobNameOfSubject and SubjectRoundTrip |
| SnsLambda.BodyLines | lib/lambda_scripts_dir/sns_lambda.py:35-55 | the 21 lines of the message template, with the job name on the introduction line and the six values on lines 44-49 |
| SnsLambda.Body | lib/lambda_scripts_dir/sns_lambda.py:35-55 | definition of the message text; specified by BodyHasLabelledLines |
| SnsLambda.PublishIffFilterPasses | lib/lambda_scripts_dir/sns_lambda.py:64-81 | the handler raises exactly when a read field is missing or the two tested fields are not strings; it publishes exactly when the job name starts with "job-" and the run id ends with "_attempt_1"; otherwise it publishes nothing |
| SnsLambda.KeyErrorIsFirstAbsentField | lib/lambda_scripts_dir/sns_lambda.py:66-74 | when the event and its detail are dictionaries, a missing field raises KeyError for the first absent field in read order, whatever the job name and environment |
| SnsLambda.KeyErrorNamesAbsentField | lib/lambda_scripts_dir/sns_lambda.py:66-74 | every KeyError names one of the seven fields the handler reads, and the event lacks that field |
| SnsLambda.RaisedErrorKind | lib/lambda_scripts_dir/sns_lambda.py:66-78 | TypeError exactly when the event or its detail is not a dictionary; AttributeError exactly when all fields are present but the job name or run id is not a string |
| SnsLambda.BothTestsAreEvaluated | lib/lambda_scripts_dir/sns_lambda.py:78 | the `&` evaluates both tests: a job name failing the prefix test with a non-string run id raises AttributeError instead of publishing nothing |
| SnsLambda.SubjectNamesJob | lib/lambda_scripts_dir/sns_lambda.py:33 | a published subject is "AWS Glue job has failed: " followed by the event's job name |
| SnsLambda.JobNameOfSubject | lib/lambda_scripts_dir/sns_lambda.py:33 | a job name read back from a subject rebuilds that subject; when none is read back, no job name builds that subject |
| SnsLambda.SubjectRoundTrip | lib/lambda_scripts_dir/sns_lambda.py:33 | reading the job name back from a built subject yields the original name, so distinct jobs get distinct subjects |
| SnsLambda.BodyHasLabelledLines | lib/lambda_scripts_dir/sns_lambda.py:35-55 | the body has a whole line for each labelled value: the job name, state, event id (as Glue Job_Id), run id, time (as Failure Time) and detail message (as Failure Error) |
| SnsLambda.PublishedMessageIsBody | lib/lambda_scripts_dir/sns_lambda.py:78-81 | a published message is the template filled with the event's own six values |
| SnsLambda.PublishedMessageHasLabelledLines | lib/lambda_scripts_dir/sns_lambda.py:44-49 | a published message has a labelled line for each of the six values taken from the event |
| SnsLambda.TopicIsConfiguredArn | lib/lambda_scripts_dir/sns_lambda.py:14-18 | the publish target is `env["SNS_TOPIC_ARN"]` when the variable is set, and "SNS TOPIC NOT FOUND" otherwise |
| SnsLambda.TopicIgnoresOtherVariables | lib/lambda_scripts_dir/sns_lambda.py:15 | no environment variable other than SNS_TOPIC_ARN changes the target |
| SnsLambda.EnvOnlySelectsTopic | lib/lambda_scripts_dir/sns_lambda.py:11-25 | the environment affects only the topic, never whether the handler raises or publishes, nor the subject and message |
| SnsLambda.HandleSeesOnlyProjection | lib/lambda_scripts_dir/sns_lambda.py:69-81 | two events with the same projection (the same six values, or the same first error) are handled alike |
| SnsLambda.OnlyProjectedFieldsMatter | lib/lambda_scripts_dir/sns_lambda.py:69-81 | two well-formed events that agree on the six read values give the same outcome |
| SnsLambda.ExtraTopLevelFieldIgnored | lib/lambda_scripts_dir/sns_lambda.py:69-74 | adding or changing a top-level field other than detail, time and id leaves the outcome unchanged |
| SnsLambda.ExtraDetailFieldIgnored | lib/lambda_scripts_dir/sns_lambda.py:69-72 | adding or changing a detail field other than the four read ones leaves the outcome unchanged |
| SnsCdkStack.RuleMatches | lib/sns-cdk-stack.ts:99-103 | definition of the rule's event pattern; used by RoutedMessageReportsFailed, DeployedJobNotifiedOnFirstRetry and RoutedEventMayStillRaise |
| SnsCdkStack.HasStackVariables | lib/sns-cdk-stack.ts:89-92 | definition: the environment holds the two variables the stack sets, and may hold more; used by DeployedEnvTargetsTopic |
| SnsCdkStack.DeployedJobPassesPrefix | lib/sns-cdk-stack.ts:170 | the deployed job's name "job-glue-test" passes the handler's "job-" prefix test |
| SnsCdkStack.DeployedEnvTargetsTopic | lib/sns-cdk-stack.ts:89-92 | in any environment holding the variables the stack sets, whatever the runtime adds, every publish targets the stack's topic ARN and never the fallback |
| SnsCdkStack.RoutedMessageReportsFailed | lib/sns-cdk-stack.ts:99-103 | for an event the rule routes, a published message has the line "Job State:     FAILED" |
| SnsCdkStack.DeployedJobNotifiedOnFirstRetry | lib/sns-cdk-stack.ts:169-170 | for a routed, well-formed event of the deployed job, the handler publishes exactly when the run id ends with "_attempt_1", with the subject naming "job-glue-test" |
| SnsCdkStack.RoutedEventMayStillRaise | lib/sns-cdk-stack.ts:99-103 | the rule checks only three fields, so a routed event can still lack one the handler reads and raise KeyError |

## Left out

- Logging (`logger.info`, sns_lambda.py:7-8, 20, 57-58, 66, 79): it is only a side channel. The subscript `event['detail']` inside the f-string at line 66 is kept as the first read of `Project`; only formatting the detail and writing the log are dropped, and neither can fail.
- The boto3 client and `client.publish` (sns_lambda.py:21-25): a network call into AWS code outside this repository. The model stops at its arguments. It does not model the response, which the handler discards. It also does not model the exceptions the call may raise, for example for the fallback ARN "SNS TOPIC NOT FOUND" or a subject that SNS rejects.
- JsonValue.Text: it does not compute Python's `str()` of dictionaries, numbers, lists, booleans or None. A non-string value carries that text as data, because rendering it depends on Python's repr rules, which this model does not cover.
- Strings with lone surrogates: a JSON escape such as `"\ud800"` decodes to a Python string that Dafny's `string`, a sequence of Unicode scalar values, cannot hold.
- The `context` argument of `lambda_handler`: the handler never uses it.
- SnsCdkStack.RuleMatches: it models each pattern entry as equality with its one listed string. It does not model EventBridge's other matching rules, such as a field holding an array that contains the string. Those belong to the EventBridge service.
- The EventBridge matching engine, SNS e-mail fan-out to the two subscriptions, and the Glue job, its trigger and its retry numbering: these are AWS services or declarative configuration with no code in this repository.
- The IAM roles and policies, the S3 bucket and script deployment, the topic and subscription declarations, and the cron trigger (sns-cdk-stack.ts): deployment configuration with no runtime behaviour.
- Deduplication, retries and per-subscriber delivery results: the code has none of them.
