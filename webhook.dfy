/**
 * The admission decision of the LogPipeline validating webhook: decode the
 * request, list the existing pipelines, run the validators in a fixed order
 * (the first failure wins) and build the admission response.
 */
module LogPipelineWebhook {
  import opened Wrappers

  const StatusReasonConfigurationError := "InvalidConfiguration"
  const StatusOK := 200
  const StatusBadRequest := 400
  const StatusForbidden := 403
  const ValidationSuccessfulMessage := "LogPipeline validation successful"
  const CustomPluginHelpText := "https://kyma-project.io/#/telemetry-manager/user/02-logs"
  const CustomPluginNotice := "' uses unsupported custom filters or outputs. We recommend changing the pipeline to use supported filters or output. See the documentation: "

  /** An error, seen only through its message. */
  datatype Error = Error(message: string)

  /**
   * A decoded LogPipeline, seen through what the handler asks of it: its name,
   * the outcome of its own `Validate` and whether it contains a custom plugin.
   */
  datatype LogPipeline = LogPipeline(name: string, validationError: Option<Error>, containsCustomPlugin: bool)

  /** The raw admission request. */
  datatype Request = Request(object: seq<bv8>)

  /** The status part of an admission response. */
  datatype Status = Status(code: int, reason: string, message: string)

  datatype Response = Response(allowed: bool, result: Option<Status>, warnings: seq<string>)

  /** The response for a request that could not be handled. */
  function Errored(code: int, err: Error): Response
  {
    Response(false, Some(Status(code, "", err.message)), [])
  }

  /** The response that admits a request with a message. */
  function Allowed(message: string): Response
  {
    Response(true, Some(Status(StatusOK, "", message)), [])
  }

  /**
   * The warning returned for a valid pipeline that uses custom filters or
   * outputs: it names the pipeline right after "Logpipeline '" and ends with
   * the documentation link.
   */
  function CustomPluginWarning(name: string): (w: string)
    ensures |w| >= 14 + |name| && w[..13] == "Logpipeline '" && w[13..13 + |name|] == name
    ensures |CustomPluginHelpText| <= |w| && w[|w| - |CustomPluginHelpText|..] == CustomPluginHelpText
  {
    var prefix := "Logpipeline '";
    var head := prefix + name + CustomPluginNotice;
    assert |prefix| == 13;
    assert head[..13] == prefix;
    assert head[13..13 + |name|] == name;
    assert (head + CustomPluginHelpText)[..|head|] == head;
    assert (head + CustomPluginHelpText)[|head|..] == CustomPluginHelpText;
    head + CustomPluginHelpText
  }

  /** The number of leading steps that passed: the index of the first failing step, or |steps| when all pass. */
  function FirstFailure(steps: seq<Option<Error>>): (k: nat)
    ensures k <= |steps|
    ensures forall i :: 0 <= i < k ==> steps[i].None?
    ensures k < |steps| ==> steps[k].Some?
  {
    if steps == [] then 0
    else if steps[0].Some? then 0
    else 1 + FirstFailure(steps[1..])
  }

  /** The error of the first failing step, if any; no step after it has a say. */
  function FirstError(steps: seq<Option<Error>>): (r: Option<Error>)
    ensures r.None? <==> forall i :: 0 <= i < |steps| ==> steps[i].None?
    ensures r.Some? ==> r in steps
  {
    var k := FirstFailure(steps);
    if k < |steps| then steps[k] else None
  }

  class ValidatingWebhookHandler {
    /** The outcome of listing all LogPipelines through the cluster client. */
    const listed: Result<seq<LogPipeline>, Error>
    const variablesValidator: (LogPipeline, seq<LogPipeline>) -> Option<Error>
    const maxPipelinesValidator: (LogPipeline, seq<LogPipeline>) -> Option<Error>
    const fileValidator: (LogPipeline, seq<LogPipeline>) -> Option<Error>
    const decoder: Request -> Result<LogPipeline, Error>

    constructor (
      listed: Result<seq<LogPipeline>, Error>,
      variablesValidator: (LogPipeline, seq<LogPipeline>) -> Option<Error>,
      maxPipelinesValidator: (LogPipeline, seq<LogPipeline>) -> Option<Error>,
      fileValidator: (LogPipeline, seq<LogPipeline>) -> Option<Error>,
      decoder: Request -> Result<LogPipeline, Error>)
      ensures this.listed == listed && this.decoder == decoder
      ensures this.variablesValidator == variablesValidator
      ensures this.maxPipelinesValidator == maxPipelinesValidator
      ensures this.fileValidator == fileValidator
    {
      this.listed := listed;
      this.variablesValidator := variablesValidator;
      this.maxPipelinesValidator := maxPipelinesValidator;
      this.fileValidator := fileValidator;
      this.decoder := decoder;
    }

    /** The validators' outcomes in the order they run: pipeline count, the pipeline's own rules, variables, files. */
    function ValidationSteps(p: LogPipeline, pipelines: seq<LogPipeline>): (steps: seq<Option<Error>>)
      ensures |steps| == 4
    {
      [maxPipelinesValidator(p, pipelines), p.validationError, variablesValidator(p, pipelines), fileValidator(p, pipelines)]
    }

    /** The first error among listing and the four validators, or None when all succeed. */
    function ValidateLogPipeline(p: LogPipeline): (r: Option<Error>)
      ensures r.None? <==>
        && listed.Ok?
        && maxPipelinesValidator(p, listed.value).None?
        && p.validationError.None?
        && variablesValidator(p, listed.value).None?
        && fileValidator(p, listed.value).None?
      ensures listed.Err? ==> r == Some(listed.error)
      ensures listed.Ok? && r.Some? ==> r in ValidationSteps(p, listed.value)
    {
      match listed
      case Err(e) => Some(e)
      case Ok(pipelines) =>
        var steps := ValidationSteps(p, pipelines);
        assert (forall i :: 0 <= i < 4 ==> steps[i].None?) <==>
          steps[0].None? && steps[1].None? && steps[2].None? && steps[3].None?;
        FirstError(steps)
    }

    /** The admission response for `req`. */
    method Handle(req: Request) returns (resp: Response)
      ensures decoder(req).Err? ==> resp == Errored(StatusBadRequest, decoder(req).error)
      ensures decoder(req).Ok? && ValidateLogPipeline(decoder(req).value).Some? ==>
        resp == Response(false,
                         Some(Status(StatusForbidden, StatusReasonConfigurationError, ValidateLogPipeline(decoder(req).value).value.message)),
                         [])
      ensures decoder(req).Ok? && ValidateLogPipeline(decoder(req).value).None? ==>
        if decoder(req).value.containsCustomPlugin
        then resp == Response(true, None, [CustomPluginWarning(decoder(req).value.name)])
        else resp == Allowed(ValidationSuccessfulMessage)
      ensures resp.allowed <==> decoder(req).Ok? && ValidateLogPipeline(decoder(req).value).None?
      ensures |resp.warnings| <= 1
    {
      var decoded := decoder(req);
      if decoded.Err? {
        return Errored(StatusBadRequest, decoded.error);
      }
      var logPipeline := decoded.value;

      var err := ValidateLogPipeline(logPipeline);
      if err.Some? {
        return Response(false, Some(Status(StatusForbidden, StatusReasonConfigurationError, err.value.message)), []);
      }

      var warnMsg: seq<string> := [];
      if logPipeline.containsCustomPlugin {
        var msg := CustomPluginWarning(logPipeline.name);
        warnMsg := warnMsg + [msg];
      }

      if |warnMsg| != 0 {
        return Response(true, None, warnMsg);
      }
      return Allowed(ValidationSuccessfulMessage);
    }

    /** A failed listing is returned before any validator runs: the validators do not affect the result. */
    lemma ListFailureComesFirst(p: LogPipeline)
      requires listed.Err?
      ensures ValidateLogPipeline(p) == Some(listed.error)
      ensures forall other: ValidatingWebhookHandler ::
        other.listed == listed ==> other.ValidateLogPipeline(p) == ValidateLogPipeline(p)
    {
    }

    /** The validators run in a fixed order; the first that fails decides the error. */
    lemma ValidatorOrder(p: LogPipeline)
      requires listed.Ok?
      ensures var ps := listed.value;
        && (maxPipelinesValidator(p, ps).Some? ==> ValidateLogPipeline(p) == maxPipelinesValidator(p, ps))
        && (maxPipelinesValidator(p, ps).None? && p.validationError.Some? ==>
              ValidateLogPipeline(p) == p.validationError)
        && (maxPipelinesValidator(p, ps).None? && p.validationError.None? && variablesValidator(p, ps).Some? ==>
              ValidateLogPipeline(p) == variablesValidator(p, ps))
        && (maxPipelinesValidator(p, ps).None? && p.validationError.None? && variablesValidator(p, ps).None? ==>
              ValidateLogPipeline(p) == fileValidator(p, ps))
    {
      var steps := ValidationSteps(p, listed.value);
      if steps[0].Some? {
        FirstErrorAt(steps, 0);
      } else if steps[1].Some? {
        FirstErrorAt(steps, 1);
      } else if steps[2].Some? {
        FirstErrorAt(steps, 2);
      } else if steps[3].Some? {
        FirstErrorAt(steps, 3);
      }
    }
  }

  /** When step k is the first to fail, its error is the result. */
  lemma FirstErrorAt(steps: seq<Option<Error>>, k: nat)
    requires k < |steps| && steps[k].Some?
    requires forall i :: 0 <= i < k ==> steps[i].None?
    ensures FirstError(steps) == steps[k]
  {
  }

  /** Steps after the first failing one are never consulted: changing them leaves the result alone. */
  lemma {:induction false} LaterStepsNotConsulted(steps: seq<Option<Error>>, other: seq<Option<Error>>, k: nat)
    requires k < |steps| && k < |other| && steps[..k + 1] == other[..k + 1]
    requires steps[k].Some?
    ensures FirstFailure(steps) == FirstFailure(other) <= k
    ensures FirstError(steps) == FirstError(other)
  {
    if steps[0].None? {
      assert steps[1..][..k] == steps[..k + 1][1..];
      assert other[1..][..k] == other[..k + 1][1..];
      assert other[0] == other[..k + 1][0];
      LaterStepsNotConsulted(steps[1..], other[1..], k - 1);
    } else {
      assert other[0] == other[..k + 1][0];
    }
  }
}
