/** Point tags derived from the invocation context's ARN
    (`arn:partition:lambda:region:account:function:name[:alias]` or
    `arn:partition:lambda:region:account:event-source-mappings:id`). */
module PointTags {
  import opened Wrappers
  import opened Errors
  import opened Strings

  /** The three fields of the AWS context object that the wrapper reads. */
  datatype Context = Context(invokedFunctionArn: string, functionName: string, functionVersion: string)

  type Tags = map<string, string>

  const LAMBDA_ARN := "LambdaArn"
  const FUNCTION_NAME := "FunctionName"
  const EXECUTED_VERSION := "ExecutedVersion"
  const REGION := "Region"
  const ACCOUNT_ID := "accountId"
  const RESOURCE := "Resource"
  const EVENT_SOURCE_MAPPINGS := "EventSourceMappings"

  const FUNCTION_TYPE := "function"
  const EVENT_SOURCE_MAPPINGS_TYPE := "event-source-mappings"

  /** The keys every successful extraction produces. */
  const BASE_KEYS: set<string> := {LAMBDA_ARN, FUNCTION_NAME, EXECUTED_VERSION, REGION, ACCOUNT_ID}

  /** Python's `list[i]` for a non-negative index: IndexError past the end. */
  function Index(parts: seq<string>, i: nat): Result<string, Error>
  {
    if i < |parts| then Success(parts[i]) else Failure(IndexError)
  }

  /** The point-tag dictionary built from the `:`-split ARN. It fails exactly when
      an index the code reads is out of range; on success it holds the five base tags,
      plus `Resource` (with the alias only when there are exactly eight segments) for a
      function ARN, or `EventSourceMappings` for an event-source-mapping ARN, and nothing
      else. */
  function ExtractTags(ctx: Context): (r: Result<Tags, Error>)
    ensures var parts := Split(ctx.invokedFunctionArn, ':');
      r.Success? <==>
        |parts| >= 6 && (parts[5] in {FUNCTION_TYPE, EVENT_SOURCE_MAPPINGS_TYPE} ==> |parts| >= 7)
    ensures r.Failure? ==> r.error == IndexError
    ensures r.Success? ==>
      var parts := Split(ctx.invokedFunctionArn, ':');
      && BASE_KEYS <= r.value.Keys
      && r.value[LAMBDA_ARN] == ctx.invokedFunctionArn
      && r.value[FUNCTION_NAME] == ctx.functionName
      && r.value[EXECUTED_VERSION] == ctx.functionVersion
      && r.value[REGION] == parts[3]
      && r.value[ACCOUNT_ID] == parts[4]
      && (parts[5] == FUNCTION_TYPE ==>
            && r.value.Keys == BASE_KEYS + {RESOURCE}
            && r.value[RESOURCE] == if |parts| == 8 then parts[6] + ":" + parts[7] else parts[6])
      && (parts[5] == EVENT_SOURCE_MAPPINGS_TYPE ==>
            && r.value.Keys == BASE_KEYS + {EVENT_SOURCE_MAPPINGS}
            && r.value[EVENT_SOURCE_MAPPINGS] == parts[6])
      && (parts[5] !in {FUNCTION_TYPE, EVENT_SOURCE_MAPPINGS_TYPE} ==> r.value.Keys == BASE_KEYS)
  {
    var splitArn := Split(ctx.invokedFunctionArn, ':');
    var region :- Index(splitArn, 3);
    var accountId :- Index(splitArn, 4);
    var pointTags := map[
      LAMBDA_ARN := ctx.invokedFunctionArn,
      FUNCTION_NAME := ctx.functionName,
      EXECUTED_VERSION := ctx.functionVersion,
      REGION := region,
      ACCOUNT_ID := accountId];
    var resourceType :- Index(splitArn, 5);
    if resourceType == FUNCTION_TYPE then
      var resource :- Index(splitArn, 6);
      if |splitArn| == 8 then
        Success(pointTags[RESOURCE := resource + ":" + splitArn[7]])
      else
        Success(pointTags[RESOURCE := resource])
    else if resourceType == EVENT_SOURCE_MAPPINGS_TYPE then
      var mapping :- Index(splitArn, 6);
      Success(pointTags[EVENT_SOURCE_MAPPINGS := mapping])
    else
      Success(pointTags)
  }

  /** Reference definition: an AWS Lambda function ARN, qualified by an alias or version
      when `alias` is present. */
  function FunctionArn(partition: string, region: string, account: string, name: string, alias: Option<string>): string
  {
    Join(["arn", partition, "lambda", region, account, FUNCTION_TYPE, name]
         + (if alias.Some? then [alias.value] else []), ':')
  }

  /** Reference definition: an AWS Lambda event-source-mapping ARN. */
  function EventSourceMappingArn(partition: string, region: string, account: string, id: string): string
  {
    Join(["arn", partition, "lambda", region, account, EVENT_SOURCE_MAPPINGS_TYPE, id], ':')
  }

  predicate NoColon(s: string) { ':' !in s }

  /** Tag extraction recovers every field of a well-formed function ARN. */
  lemma FunctionArnTags(partition: string, region: string, account: string, name: string,
                        alias: Option<string>, ctx: Context)
    requires NoColon(partition) && NoColon(region) && NoColon(account) && NoColon(name)
    requires alias.Some? ==> NoColon(alias.value)
    requires ctx.invokedFunctionArn == FunctionArn(partition, region, account, name, alias)
    ensures ExtractTags(ctx) == Success(map[
      LAMBDA_ARN := ctx.invokedFunctionArn,
      FUNCTION_NAME := ctx.functionName,
      EXECUTED_VERSION := ctx.functionVersion,
      REGION := region,
      ACCOUNT_ID := account,
      RESOURCE := if alias.Some? then name + ":" + alias.value else name])
  {
    var parts := ["arn", partition, "lambda", region, account, FUNCTION_TYPE, name]
                 + (if alias.Some? then [alias.value] else []);
    SplitJoin(parts, ':');
  }

  /** Tag extraction recovers every field of a well-formed event-source-mapping ARN. */
  lemma EventSourceMappingArnTags(partition: string, region: string, account: string, id: string, ctx: Context)
    requires NoColon(partition) && NoColon(region) && NoColon(account) && NoColon(id)
    requires ctx.invokedFunctionArn == EventSourceMappingArn(partition, region, account, id)
    ensures ExtractTags(ctx) == Success(map[
      LAMBDA_ARN := ctx.invokedFunctionArn,
      FUNCTION_NAME := ctx.functionName,
      EXECUTED_VERSION := ctx.functionVersion,
      REGION := region,
      ACCOUNT_ID := account,
      EVENT_SOURCE_MAPPINGS := id])
  {
    SplitJoin(["arn", partition, "lambda", region, account, EVENT_SOURCE_MAPPINGS_TYPE, id], ':');
  }
}
