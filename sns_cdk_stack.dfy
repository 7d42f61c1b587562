/** What the deployment stack fixes about the handler's inputs: the
    EventBridge rule that decides which events reach the handler, the name of
    the one Glue job it deploys, and the environment it gives the function. */
module SnsCdkStack {
  import opened JsonValue
  import opened Strings
  import opened SnsLambda

  const RuleDetailType := "Glue Job State Change"
  const RuleSource := "aws.glue"
  const RuleState := "FAILED"
  const DeployedJobName := "job-glue-test"

  /** The rule's event pattern: the `detail-type` and `source` of the event
      and the `state` of its detail each equal the one listed string. */
  predicate RuleMatches(event: Value)
  {
    && event.Obj?
    && "detail-type" in event.fields && event.fields["detail-type"] == Str(RuleDetailType)
    && "source" in event.fields && event.fields["source"] == Str(RuleSource)
    && "detail" in event.fields && event.fields["detail"].Obj?
    && "state" in event.fields["detail"].fields
    && event.fields["detail"].fields["state"] == Str(RuleState)
  }

  /** env holds the variables the stack sets for the function: the topic's
      ARN and the deployment type. The Lambda runtime adds variables of its
      own, so env may hold more. */
  predicate HasStackVariables(env: map<string, string>, topicArn: string, envtype: string)
  {
    && TopicEnvKey in env && env[TopicEnvKey] == topicArn
    && "envtype" in env && env["envtype"] == envtype
  }

  /** The deployed job's name passes the handler's prefix test. */
  lemma DeployedJobPassesPrefix()
    ensures StartsWith(DeployedJobName, JobPrefix)
  {
  }

  /** Under the deployed environment the publish targets the stack's topic,
      never the fallback. */
  lemma DeployedEnvTargetsTopic(event: Value, env: map<string, string>, topicArn: string, envtype: string)
    requires HasStackVariables(env, topicArn, envtype)
    requires Handle(event, env).Publish?
    ensures Handle(event, env).topicArn == topicArn
  {
    TopicIsConfiguredArn(event, env);
  }

  /** Every message published for a routed event reports the state FAILED. */
  lemma RoutedMessageReportsFailed(event: Value, env: map<string, string>)
    requires RuleMatches(event) && Handle(event, env).Publish?
    ensures IsLineOf(Handle(event, env).message, StateLabel + RuleState)
  {
    PublishedMessageHasLabelledLines(event, env);
  }

  /** For a routed, well-formed event of the deployed job, the handler
      notifies exactly when the run id marks the first retry, and the subject
      names the deployed job. */
  lemma DeployedJobNotifiedOnFirstRetry(event: Value, env: map<string, string>)
    requires RuleMatches(event) && WellFormed(event) && JobName(event) == DeployedJobName
    ensures Handle(event, env).Publish? <==> EndsWith(RunId(event), RetrySuffix)
    ensures Handle(event, env).Publish? ==>
              Handle(event, env).subject == SubjectPrefix + DeployedJobName
  {
  }

  /** The rule checks only three fields: a routed event can still lack one
      the handler reads and make it raise rather than publish. */
  lemma RoutedEventMayStillRaise(env: map<string, string>)
    ensures exists event :: RuleMatches(event) && Handle(event, env) == Raised(KeyError("jobName"))
  {
    var detail := Obj(map["state" := Str(RuleState)], "{'state': 'FAILED'}");
    var event := Obj(map["detail-type" := Str(RuleDetailType), "source" := Str(RuleSource),
                         "detail" := detail], "");
    assert RuleMatches(event);
    assert Handle(event, env) == Raised(KeyError("jobName"));
  }
}
