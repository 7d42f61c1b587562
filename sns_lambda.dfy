/** The Lambda handler of the job-failure notifier: it projects six fields out
    of a Glue "Job State Change" event, keeps only runs of jobs named "job-..."
    whose run id ends in "_attempt_1", and for those builds an e-mail subject
    and body and publishes them to the SNS topic named by the environment. */
module SnsLambda {
  import opened JsonValue
  import opened Strings

  /** The Python exceptions the handler can raise before publishing. */
  datatype PyError =
    | KeyError(key: string)  // a dictionary lookup of an absent key
    | TypeError             // subscripting a value that is not a dictionary
    | AttributeError        // startswith/endswith on a value that is not a string

  /** What one invocation does. `Publish` is the single `client.publish`
      call, with its target ARN, subject and message; the handler itself
      returns None in both non-raising cases. */
  datatype Outcome =
    | Raised(error: PyError)
    | NoPublish
    | Publish(topicArn: string, subject: string, message: string)

  /** The six values the handler reads, in the order of `final_status`'s
      parameters. */
  datatype JobFields = JobFields(
    jobName: Value, state: Value, jobRunId: Value,
    message: Value, time: Value, id: Value)

  const TopicEnvKey := "SNS_TOPIC_ARN"
  const TopicNotFound := "SNS TOPIC NOT FOUND"
  const JobPrefix := "job-"
  const RetrySuffix := "_attempt_1"
  const SubjectPrefix := "AWS Glue job has failed: "

  const NameLabel := "    Job Name:      "
  const StateLabel := "    Job State:     "
  const IdLabel := "    Glue Job_Id:   "
  const RunIdLabel := "    Job Run_Id:    "
  const TimeLabel := "    Failure Time:  "
  const ErrorLabel := "    Failure Error: "
  const Rule := "    --------------------------------------------------------------------------------------------------------------------"

  // ---------------------------------------------------------------------
  // publish_to_sns: the topic lookup
  // ---------------------------------------------------------------------

  /** `os.environ['SNS_TOPIC_ARN']`, or the literal fallback when the
      lookup raises KeyError. */
  function TopicArn(env: map<string, string>): string
  {
    if TopicEnvKey in env then env[TopicEnvKey] else TopicNotFound
  }

  // ---------------------------------------------------------------------
  // final_status: subject and body
  // ---------------------------------------------------------------------

  function Subject(jobName: string): string
  {
    SubjectPrefix + jobName
  }

  /** The lines of the message template, between the opening and the closing
      triple quotes; the template opens with a newline, hence the empty first
      line. */
  function BodyLines(jobName: string, f: JobFields): seq<string>
  {
    [ "",
      "    Dear Team",
      "",
      "    This is an auto generated email triggered to inform you,The AWS Glue job '"
        + jobName + "' has failed.",
      "    Please take immediate attendentation to it.",
      "",
      Rule,
      "    Failed Glue Job Details:",
      Rule,
      NameLabel + jobName,
      StateLabel + Text(f.state),
      IdLabel + Text(f.id),
      RunIdLabel + Text(f.jobRunId),
      TimeLabel + Text(f.time),
      ErrorLabel + Text(f.message),
      Rule,
      "",
      "    We suggest you investigate the issue and take necessary action to rectify it promptly.",
      "",
      "    Regards,",
      "    Monitoring Team" ]
  }

  function Body(jobName: string, f: JobFields): string
  {
    JoinLines(BodyLines(jobName, f))
  }

  // ---------------------------------------------------------------------
  // lambda_handler
  // ---------------------------------------------------------------------

  /** Lines 66-74: the subscripts `event['detail']`, then jobName, state,
      jobRunId and message of the detail, then `event['time']` and
      `event['id']`, the first failing one raising. */
  function Project(event: Value): (r: Result)
    ensures r.Ok? <==> AllPresent(event)
  {
    if !event.Obj? then Err(TypeError)
    else if "detail" !in event.fields then Err(KeyError("detail"))
    else
      var detail := event.fields["detail"];
      if !detail.Obj? then Err(TypeError)
      else if "jobName" !in detail.fields then Err(KeyError("jobName"))
      else if "state" !in detail.fields then Err(KeyError("state"))
      else if "jobRunId" !in detail.fields then Err(KeyError("jobRunId"))
      else if "message" !in detail.fields then Err(KeyError("message"))
      else if "time" !in event.fields then Err(KeyError("time"))
      else if "id" !in event.fields then Err(KeyError("id"))
      else Ok(JobFields(detail.fields["jobName"], detail.fields["state"],
                        detail.fields["jobRunId"], detail.fields["message"],
                        event.fields["time"], event.fields["id"]))
  }

  datatype Result = Ok(fields: JobFields) | Err(error: PyError)

  /** One invocation of `lambda_handler(event, context)` with the process
      environment env. Python's `&` evaluates both `startswith` and
      `endswith` before combining them, so a non-string on either side
      raises even when the other test is already false. */
  function Handle(event: Value, env: map<string, string>): Outcome
  {
    match Project(event)
    case Err(e) => Raised(e)
    case Ok(f) =>
      if !f.jobName.Str? || !f.jobRunId.Str? then Raised(AttributeError)
      else if StartsWith(f.jobName.s, JobPrefix) && EndsWith(f.jobRunId.s, RetrySuffix) then
        Publish(TopicArn(env), Subject(f.jobName.s), Body(f.jobName.s, f))
      else NoPublish
  }

  // ---------------------------------------------------------------------
  // Declarative view of the event
  // ---------------------------------------------------------------------

  /** The event has every field the handler reads, and the two it tests are
      strings. */
  ghost predicate WellFormed(event: Value)
  {
    && event.Obj?
    && "detail" in event.fields && "time" in event.fields && "id" in event.fields
    && var d := event.fields["detail"];
       && d.Obj?
       && "jobName" in d.fields && "state" in d.fields
       && "jobRunId" in d.fields && "message" in d.fields
       && d.fields["jobName"].Str? && d.fields["jobRunId"].Str?
  }

  /** The value of a detail field the event has. */
  function Detail(event: Value, key: string): Value
    requires key in {"jobName", "state", "jobRunId", "message"} && Present(event, key)
  {
    event.fields["detail"].fields[key]
  }

  ghost function JobName(event: Value): string
    requires WellFormed(event)
  {
    Detail(event, "jobName").s
  }

  ghost function RunId(event: Value): string
    requires WellFormed(event)
  {
    Detail(event, "jobRunId").s
  }

  /** The notification filter of line 78. */
  ghost predicate PassesFilter(event: Value)
    requires WellFormed(event)
  {
    StartsWith(JobName(event), JobPrefix) && EndsWith(RunId(event), RetrySuffix)
  }

  lemma PublishIffFilterPasses(event: Value, env: map<string, string>)
    ensures Handle(event, env).Raised? <==> !WellFormed(event)
    ensures Handle(event, env).Publish? <==> WellFormed(event) && PassesFilter(event)
    ensures Handle(event, env).NoPublish? <==> WellFormed(event) && !PassesFilter(event)
  {
  }

  /** The six values of a well-formed event. */
  ghost function Fields(event: Value): JobFields
    requires WellFormed(event)
  {
    JobFields(Detail(event, "jobName"), Detail(event, "state"), Detail(event, "jobRunId"),
              Detail(event, "message"), event.fields["time"], event.fields["id"])
  }

  /** The fields in the order the handler subscripts them. */
  const ReadOrder: seq<string> := ["detail", "jobName", "state", "jobRunId", "message", "time", "id"]

  /** key, one of ReadOrder, can be read from event: a top-level key of the
      event, or a key of the event's detail dictionary. */
  predicate Present(event: Value, key: string)
  {
    if key in {"jobName", "state", "jobRunId", "message"} then
      && event.Obj? && "detail" in event.fields
      && event.fields["detail"].Obj? && key in event.fields["detail"].fields
    else event.Obj? && key in event.fields
  }

  /** When the event and its detail are dictionaries, a missing field raises
      KeyError naming the first absent field in read order, whatever the
      other fields hold and whatever the environment is. */
  lemma KeyErrorIsFirstAbsentField(event: Value, env: map<string, string>, i: nat)
    requires event.Obj?
    requires "detail" in event.fields ==> event.fields["detail"].Obj?
    requires i < |ReadOrder| && !Present(event, ReadOrder[i])
    requires forall j :: 0 <= j < i ==> Present(event, ReadOrder[j])
    ensures Handle(event, env) == Raised(KeyError(ReadOrder[i]))
  {
    if i > 0 { assert Present(event, ReadOrder[0]); }
    if i > 1 { assert Present(event, ReadOrder[1]); }
    if i > 2 { assert Present(event, ReadOrder[2]); }
    if i > 3 { assert Present(event, ReadOrder[3]); }
    if i > 4 { assert Present(event, ReadOrder[4]); }
    if i > 5 { assert Present(event, ReadOrder[5]); }
  }

  /** Conversely, a KeyError always names a field the handler reads that the
      event lacks. */
  lemma KeyErrorNamesAbsentField(event: Value, env: map<string, string>, key: string)
    requires Handle(event, env) == Raised(KeyError(key))
    ensures key in ReadOrder && !Present(event, key)
  {
  }

  /** Every field the handler reads is there. */
  predicate AllPresent(event: Value)
  {
    && Present(event, "detail") && Present(event, "jobName") && Present(event, "state")
    && Present(event, "jobRunId") && Present(event, "message")
    && Present(event, "time") && Present(event, "id")
  }

  /** TypeError exactly when the event, or its detail, is not a dictionary;
      AttributeError exactly when every field is present but the job name or
      the run id is not a string. */
  lemma RaisedErrorKind(event: Value, env: map<string, string>)
    ensures Handle(event, env) == Raised(TypeError) <==>
              !event.Obj? || ("detail" in event.fields && !event.fields["detail"].Obj?)
    ensures Handle(event, env) == Raised(AttributeError) <==>
              AllPresent(event)
              && !(Detail(event, "jobName").Str? && Detail(event, "jobRunId").Str?)
  {
  }

  /** Python's `&` is no short circuit: a job name that already fails the
      prefix test does not spare a non-string run id its `endswith` call. */
  lemma BothTestsAreEvaluated(event: Value, env: map<string, string>)
    requires AllPresent(event)
    requires Detail(event, "jobName").Str?
    requires !StartsWith(Detail(event, "jobName").s, JobPrefix)
    requires !Detail(event, "jobRunId").Str?
    ensures Handle(event, env) == Raised(AttributeError)
  {
  }

  /** The subject is the fixed prefix followed by the event's job name. */
  lemma SubjectNamesJob(event: Value, env: map<string, string>)
    requires Handle(event, env).Publish?
    ensures WellFormed(event)
    ensures Handle(event, env).subject == SubjectPrefix + JobName(event)
  {
  }

  /** Reads the job name back out of a subject. */
  function JobNameOfSubject(subject: string): (name: Option<string>)
    ensures name.Some? ==> Subject(name.value) == subject
    ensures name.None? ==> forall n :: Subject(n) != subject
  {
    if StartsWith(subject, SubjectPrefix) then Some(subject[|SubjectPrefix|..]) else None
  }

  datatype Option<T> = None | Some(value: T)

  /** The subject gives the job name back: no two job names share a subject. */
  lemma SubjectRoundTrip(jobName: string)
    ensures JobNameOfSubject(Subject(jobName)) == Some(jobName)
  {
  }

  /** The body built for a job name and the six values carries the name,
      state, event id, run id, time and error message each on its own
      labelled line. */
  lemma BodyHasLabelledLines(jobName: string, f: JobFields)
    ensures var m := Body(jobName, f);
      && IsLineOf(m, NameLabel + jobName)
      && IsLineOf(m, StateLabel + Text(f.state))
      && IsLineOf(m, IdLabel + Text(f.id))
      && IsLineOf(m, RunIdLabel + Text(f.jobRunId))
      && IsLineOf(m, TimeLabel + Text(f.time))
      && IsLineOf(m, ErrorLabel + Text(f.message))
  {
    var lines := BodyLines(jobName, f);
    LineOfJoinLines(lines, 9);
    LineOfJoinLines(lines, 10);
    LineOfJoinLines(lines, 11);
    LineOfJoinLines(lines, 12);
    LineOfJoinLines(lines, 13);
    LineOfJoinLines(lines, 14);
  }

  /** The published message is the body built from the event's own values. */
  lemma PublishedMessageIsBody(event: Value, env: map<string, string>)
    requires Handle(event, env).Publish?
    ensures WellFormed(event)
    ensures Handle(event, env).message == Body(JobName(event), Fields(event))
  {
  }

  /** What a published message says: each of the event's six values on its
      labelled line. */
  lemma PublishedMessageHasLabelledLines(event: Value, env: map<string, string>)
    requires Handle(event, env).Publish?
    ensures WellFormed(event)
    ensures var m := Handle(event, env).message;
      && IsLineOf(m, NameLabel + JobName(event))
      && IsLineOf(m, StateLabel + Text(Detail(event, "state")))
      && IsLineOf(m, IdLabel + Text(event.fields["id"]))
      && IsLineOf(m, RunIdLabel + RunId(event))
      && IsLineOf(m, TimeLabel + Text(event.fields["time"]))
      && IsLineOf(m, ErrorLabel + Text(Detail(event, "message")))
  {
    PublishedMessageIsBody(event, env);
    BodyHasLabelledLines(JobName(event), Fields(event));
  }

  /** The target is SNS_TOPIC_ARN from the environment when it is set, and
      the literal fallback otherwise. */
  lemma TopicIsConfiguredArn(event: Value, env: map<string, string>)
    requires Handle(event, env).Publish?
    ensures TopicEnvKey in env ==> Handle(event, env).topicArn == env[TopicEnvKey]
    ensures TopicEnvKey !in env ==> Handle(event, env).topicArn == TopicNotFound
  {
  }

  /** No environment variable but SNS_TOPIC_ARN affects the target. */
  lemma TopicIgnoresOtherVariables(env: map<string, string>, key: string, v: string)
    requires key != TopicEnvKey
    ensures TopicArn(env[key := v]) == TopicArn(env)
  {
  }

  /** The environment only selects the topic: whether the handler raises,
      stays silent or publishes, and what subject and message it publishes,
      depend on the event alone. */
  lemma EnvOnlySelectsTopic(event: Value, env1: map<string, string>, env2: map<string, string>)
    ensures Handle(event, env1).Publish? == Handle(event, env2).Publish?
    ensures !Handle(event, env1).Publish? ==> Handle(event, env1) == Handle(event, env2)
    ensures Handle(event, env1).Publish? ==>
              Handle(event, env1).subject == Handle(event, env2).subject
              && Handle(event, env1).message == Handle(event, env2).message
  {
  }

  /** The handler sees the event only through its projection. */
  lemma HandleSeesOnlyProjection(e1: Value, e2: Value, env: map<string, string>)
    requires Project(e1) == Project(e2)
    ensures Handle(e1, env) == Handle(e2, env)
  {
  }

  /** Only the six projected values decide the outcome: two well-formed events
      that agree on them are handled alike. */
  lemma OnlyProjectedFieldsMatter(e1: Value, e2: Value, env: map<string, string>)
    requires WellFormed(e1) && WellFormed(e2) && Fields(e1) == Fields(e2)
    ensures Handle(e1, env) == Handle(e2, env)
  {
  }

  /** A top-level field the handler does not read (such as `source` or
      `detail-type`) does not change the outcome. */
  lemma ExtraTopLevelFieldIgnored(event: Value, env: map<string, string>, key: string, v: Value)
    requires event.Obj? && key !in {"detail", "time", "id"}
    ensures Handle(Obj(event.fields[key := v], event.shown), env) == Handle(event, env)
  {
    var e2 := Obj(event.fields[key := v], event.shown);
    assert Project(e2) == Project(event);
    HandleSeesOnlyProjection(e2, event, env);
  }

  /** A detail field the handler does not read does not change the outcome. */
  lemma ExtraDetailFieldIgnored(event: Value, env: map<string, string>, key: string, v: Value)
    requires event.Obj? && "detail" in event.fields && event.fields["detail"].Obj?
    requires key !in {"jobName", "state", "jobRunId", "message"}
    ensures
      var d := event.fields["detail"];
      Handle(Obj(event.fields["detail" := Obj(d.fields[key := v], d.shown)], event.shown), env)
        == Handle(event, env)
  {
    var d := event.fields["detail"];
    var e2 := Obj(event.fields["detail" := Obj(d.fields[key := v], d.shown)], event.shown);
    assert Project(e2) == Project(event);
    HandleSeesOnlyProjection(e2, event, env);
  }
}
