/**
 * The reason catalog: condition type and reason codes, and the constant
 * tables that turn a reason code into the human-readable message of a
 * Log, Trace or Metric pipeline condition.
 */
module Conditions {

  // Condition types
  const TypeGatewayHealthy := "GatewayHealthy"
  const TypeAgentHealthy := "AgentHealthy"
  const TypeConfigurationGenerated := "ConfigurationGenerated"
  const TypeFlowHealthy := "TelemetryFlowHealthy"
  // Deprecated condition types, kept for existing consumers
  const TypeRunning := "Running"
  const TypePending := "Pending"

  // Prefixes of the messages of the deprecated types
  const RunningTypeDeprecationMsg := "[NOTE: The \"Running\" type is deprecated] "
  const PendingTypeDeprecationMsg := "[NOTE: The \"Pending\" type is deprecated] "

  // Universal pipeline reasons
  const ReasonNoPipelineDeployed := "NoPipelineDeployed"
  const ReasonComponentsRunning := "ComponentsRunning"
  const ReasonReferencedSecretMissing := "ReferencedSecretMissing"
  const ReasonResourceBlocksDeletion := "ResourceBlocksDeletion"

  // Common pipeline reasons
  const ReasonMaxPipelinesExceeded := "MaxPipelinesExceeded"
  const ReasonConfigurationGenerated := "ConfigurationGenerated"
  const ReasonDeploymentNotReady := "DeploymentNotReady"
  const ReasonDeploymentReady := "DeploymentReady"
  const ReasonDaemonSetNotReady := "DaemonSetNotReady"
  const ReasonDaemonSetReady := "DaemonSetReady"
  const ReasonAllDataDropped := "AllTelemetryDataDropped"
  const ReasonSomeDataDropped := "SomeTelemetryDataDropped"
  const ReasonBufferFillingUp := "BufferFillingUp"
  const ReasonGatewayThrottling := "GatewayThrottling"
  const ReasonFlowHealthy := "Healthy"
  const ReasonTLSCertificateInvalid := "TLSCertificateInvalid"
  const ReasonTLSPrivateKeyInvalid := "TLSPrivateKeyInvalid"
  const ReasonTLSCertificateKeyPairInvalid := "TLSCertificateKeyPairInvalid"
  const ReasonTLSCertificateExpired := "TLSCertificateExpired"
  const ReasonTLSCertificateAboutToExpire := "TLSCertificateAboutToExpire"

  // LogPipeline only reasons
  const ReasonNoLogsDelivered := "NoLogsDelivered"
  const ReasonUnsupportedLokiOutput := "UnsupportedLokiOutput"

  // MetricPipeline only reasons
  const ReasonMetricAgentNotRequired := "AgentNotRequired"

  // Deprecated reasons, removed together with the Running and Pending types
  const ReasonFluentBitDSNotReady := "FluentBitDaemonSetNotReady"
  const ReasonFluentBitDSReady := "FluentBitDaemonSetReady"
  const ReasonTraceGatewayDeploymentNotReady := "TraceGatewayDeploymentNotReady"
  const ReasonTraceGatewayDeploymentReady := "TraceGatewayDeploymentReady"

  /** Messages shared by all pipeline kinds. The `%s` of the TLS messages is kept verbatim. */
  const CommonMessages: map<string, string> := map[
    ReasonNoPipelineDeployed := "No pipelines have been deployed",
    ReasonReferencedSecretMissing := "One or more referenced Secrets are missing",
    ReasonMaxPipelinesExceeded := "Maximum pipeline count limit exceeded",
    ReasonTLSCertificateInvalid := "TLS certificate invalid: %s",
    ReasonTLSPrivateKeyInvalid := "TLS private key invalid: %s",
    ReasonTLSCertificateExpired := "TLS certificate expired on %s",
    ReasonTLSCertificateAboutToExpire := "TLS certificate is about to expire, configured certificate is valid until %s",
    ReasonTLSCertificateKeyPairInvalid := "TLS certificate and private key do not match: %s"
  ]

  const MetricPipelineMessages: map<string, string> := map[
    ReasonDeploymentNotReady := "Metric gateway Deployment is not ready",
    ReasonDeploymentReady := "Metric gateway Deployment is ready",
    ReasonDaemonSetNotReady := "Metric agent DaemonSet is not ready",
    ReasonDaemonSetReady := "Metric agent DaemonSet is ready",
    ReasonComponentsRunning := "All metric components are running",
    ReasonAllDataDropped := "All metrics dropped: backend unreachable or rejecting",
    ReasonSomeDataDropped := "Some metrics dropped: backend unreachable or rejecting",
    ReasonBufferFillingUp := "Buffer nearing capacity: incoming metric rate exceeds export rate",
    ReasonGatewayThrottling := "Metric gateway experiencing high influx: unable to receive metrics at current rate",
    ReasonFlowHealthy := "No problems detected in the metric flow"
  ]

  const TracePipelineMessages: map<string, string> := map[
    ReasonDeploymentNotReady := "Trace gateway Deployment is not ready",
    ReasonDeploymentReady := "Trace gateway Deployment is ready",
    ReasonTraceGatewayDeploymentNotReady := "Trace gateway Deployment is not ready",
    ReasonTraceGatewayDeploymentReady := "Trace gateway Deployment is ready",
    ReasonComponentsRunning := "All trace components are running",
    ReasonAllDataDropped := "All traces dropped: backend unreachable or rejecting",
    ReasonSomeDataDropped := "Some traces dropped: backend unreachable or rejecting",
    ReasonBufferFillingUp := "Buffer nearing capacity: incoming trace rate exceeds export rate",
    ReasonGatewayThrottling := "Trace gateway experiencing high influx: unable to receive traces at current rate",
    ReasonFlowHealthy := "No problems detected in the trace flow"
  ]

  const LogPipelineMessages: map<string, string> := map[
    ReasonDaemonSetNotReady := "Fluent Bit DaemonSet is not ready",
    ReasonDaemonSetReady := "Fluent Bit DaemonSet is ready",
    ReasonFluentBitDSNotReady := "Fluent Bit DaemonSet is not ready",
    ReasonFluentBitDSReady := "Fluent Bit DaemonSet is ready",
    ReasonUnsupportedLokiOutput := "grafana-loki output is not supported anymore. For integration with a custom Loki installation, use the `custom` output and follow https://kyma-project.io/#/telemetry-manager/user/integration/loki/README",
    ReasonComponentsRunning := "All log components are running",
    ReasonAllDataDropped := "All logs dropped: backend unreachable or rejecting",
    ReasonSomeDataDropped := "Some logs dropped: backend unreachable or rejecting",
    ReasonBufferFillingUp := "Buffer nearing capacity: incoming log rate exceeds export rate",
    ReasonNoLogsDelivered := "No logs delivered to backend",
    ReasonFlowHealthy := "No problems detected in the log flow"
  ]

  /**
   * The message of `reason`: the shared table is consulted first, then the
   * given kind-specific table; a reason in neither gives the empty string.
   */
  function Message(reason: string, specializedMessages: map<string, string>): (m: string)
    ensures reason in CommonMessages ==> m == CommonMessages[reason]
    ensures reason !in CommonMessages && reason in specializedMessages ==> m == specializedMessages[reason]
    ensures reason !in CommonMessages && reason !in specializedMessages ==> m == ""
    ensures m == "" || m in CommonMessages.Values || m in specializedMessages.Values
  {
    if reason in CommonMessages then CommonMessages[reason]
    else if reason in specializedMessages then specializedMessages[reason]
    else ""
  }

  /** The message of `reason` for a log pipeline: shared reasons keep the shared text, unknown reasons give "". */
  function MessageForLogPipeline(reason: string): (m: string)
    ensures reason in CommonMessages ==> m == CommonMessages[reason]
    ensures m != "" ==> reason in CommonMessages || reason in LogPipelineMessages
  {
    Message(reason, LogPipelineMessages)
  }

  /** The message of `reason` for a trace pipeline: shared reasons keep the shared text, unknown reasons give "". */
  function MessageForTracePipeline(reason: string): (m: string)
    ensures reason in CommonMessages ==> m == CommonMessages[reason]
    ensures m != "" ==> reason in CommonMessages || reason in TracePipelineMessages
  {
    Message(reason, TracePipelineMessages)
  }

  /** The message of `reason` for a metric pipeline: shared reasons keep the shared text, unknown reasons give "". */
  function MessageForMetricPipeline(reason: string): (m: string)
    ensures reason in CommonMessages ==> m == CommonMessages[reason]
    ensures m != "" ==> reason in CommonMessages || reason in MetricPipelineMessages
  {
    Message(reason, MetricPipelineMessages)
  }

  /** The three pipeline kinds, so that properties can be stated once for all of them. */
  datatype PipelineKind = LogPipeline | TracePipeline | MetricPipeline

  function SpecializedMessages(kind: PipelineKind): map<string, string>
  {
    match kind
    case LogPipeline => LogPipelineMessages
    case TracePipeline => TracePipelineMessages
    case MetricPipeline => MetricPipelineMessages
  }

  /** The `MessageFor…Pipeline` function of `kind`. */
  function MessageFor(kind: PipelineKind, reason: string): string
  {
    match kind
    case LogPipeline => MessageForLogPipeline(reason)
    case TracePipeline => MessageForTracePipeline(reason)
    case MetricPipeline => MessageForMetricPipeline(reason)
  }

  /** The reasons of the shared table. */
  lemma CommonReasons()
    ensures CommonMessages.Keys == {
      ReasonNoPipelineDeployed, ReasonReferencedSecretMissing, ReasonMaxPipelinesExceeded,
      ReasonTLSCertificateInvalid, ReasonTLSPrivateKeyInvalid, ReasonTLSCertificateExpired,
      ReasonTLSCertificateAboutToExpire, ReasonTLSCertificateKeyPairInvalid}
  {
  }

  lemma CommonReasonsNotInLogTable()
    ensures ReasonNoPipelineDeployed !in LogPipelineMessages
    ensures ReasonReferencedSecretMissing !in LogPipelineMessages
    ensures ReasonMaxPipelinesExceeded !in LogPipelineMessages
    ensures ReasonTLSCertificateInvalid !in LogPipelineMessages
    ensures ReasonTLSPrivateKeyInvalid !in LogPipelineMessages
    ensures ReasonTLSCertificateExpired !in LogPipelineMessages
    ensures ReasonTLSCertificateAboutToExpire !in LogPipelineMessages
    ensures ReasonTLSCertificateKeyPairInvalid !in LogPipelineMessages
  {
  }

  lemma CommonReasonsNotInTraceTable()
    ensures ReasonNoPipelineDeployed !in TracePipelineMessages
    ensures ReasonReferencedSecretMissing !in TracePipelineMessages
    ensures ReasonMaxPipelinesExceeded !in TracePipelineMessages
    ensures ReasonTLSCertificateInvalid !in TracePipelineMessages
    ensures ReasonTLSPrivateKeyInvalid !in TracePipelineMessages
    ensures ReasonTLSCertificateExpired !in TracePipelineMessages
    ensures ReasonTLSCertificateAboutToExpire !in TracePipelineMessages
    ensures ReasonTLSCertificateKeyPairInvalid !in TracePipelineMessages
  {
  }

  lemma CommonReasonsNotInMetricTable()
    ensures ReasonNoPipelineDeployed !in MetricPipelineMessages
    ensures ReasonReferencedSecretMissing !in MetricPipelineMessages
    ensures ReasonMaxPipelinesExceeded !in MetricPipelineMessages
    ensures ReasonTLSCertificateInvalid !in MetricPipelineMessages
    ensures ReasonTLSPrivateKeyInvalid !in MetricPipelineMessages
    ensures ReasonTLSCertificateExpired !in MetricPipelineMessages
    ensures ReasonTLSCertificateAboutToExpire !in MetricPipelineMessages
    ensures ReasonTLSCertificateKeyPairInvalid !in MetricPipelineMessages
  {
  }

  /** No reason of the shared table appears in any kind-specific table. */
  lemma CatalogsDisjoint(kind: PipelineKind)
    ensures CommonMessages.Keys !! SpecializedMessages(kind).Keys
  {
    CommonReasons();
    match kind
    case LogPipeline => CommonReasonsNotInLogTable();
    case TracePipeline => CommonReasonsNotInTraceTable();
    case MetricPipeline => CommonReasonsNotInMetricTable();
  }

  /** Every stored message is non-empty, so "" means "no entry". */
  lemma MessagesNonEmpty(kind: PipelineKind)
    ensures forall r :: r in CommonMessages ==> CommonMessages[r] != ""
    ensures forall r :: r in SpecializedMessages(kind) ==> SpecializedMessages(kind)[r] != ""
  {
  }

  /** A reason of the shared table has the shared message whatever the kind. */
  lemma CommonReasonsAgree(reason: string)
    requires reason in CommonMessages
    ensures MessageForLogPipeline(reason) == CommonMessages[reason]
    ensures MessageForTracePipeline(reason) == CommonMessages[reason]
    ensures MessageForMetricPipeline(reason) == CommonMessages[reason]
  {
  }

  /** A reason only the kind-specific table knows gets that table's message. */
  lemma SpecializedReasonsFallBack(kind: PipelineKind, reason: string)
    requires reason !in CommonMessages && reason in SpecializedMessages(kind)
    ensures MessageFor(kind, reason) == SpecializedMessages(kind)[reason]
  {
  }

  /** A reason known to neither table gives the empty message, and only such a reason does. */
  lemma EmptyMessageIffUnknown(kind: PipelineKind, reason: string)
    ensures MessageFor(kind, reason) == "" <==> reason !in CommonMessages && reason !in SpecializedMessages(kind)
  {
    MessagesNonEmpty(kind);
  }

  /**
   * The lookup is the lookup in the union of the two tables; since their keys
   * are disjoint, it does not matter which table is consulted first.
   */
  lemma MessageIsUnionLookup(kind: PipelineKind, reason: string)
    ensures var union := SpecializedMessages(kind) + CommonMessages;
            MessageFor(kind, reason) == if reason in union then union[reason] else ""
    ensures var union := CommonMessages + SpecializedMessages(kind);
            MessageFor(kind, reason) == if reason in union then union[reason] else ""
  {
    CatalogsDisjoint(kind);
  }

  /** The flow-healthy message names the kind's own signal. */
  lemma FlowHealthyMessages()
    ensures MessageForLogPipeline(ReasonFlowHealthy) == "No problems detected in the log flow"
    ensures MessageForTracePipeline(ReasonFlowHealthy) == "No problems detected in the trace flow"
    ensures MessageForMetricPipeline(ReasonFlowHealthy) == "No problems detected in the metric flow"
  {
  }

  /** The log pipeline has no gateway, so it has no throttling message; the other two kinds have one. */
  lemma GatewayThrottlingNotForLogs()
    ensures MessageForLogPipeline(ReasonGatewayThrottling) == ""
    ensures MessageForTracePipeline(ReasonGatewayThrottling) != ""
    ensures MessageForMetricPipeline(ReasonGatewayThrottling) != ""
  {
  }

  /** Deprecated log reasons show the same text as the reasons that replace them. */
  lemma DeprecatedLogReasonsAlias()
    ensures MessageForLogPipeline(ReasonFluentBitDSNotReady) == MessageForLogPipeline(ReasonDaemonSetNotReady) != ""
    ensures MessageForLogPipeline(ReasonFluentBitDSReady) == MessageForLogPipeline(ReasonDaemonSetReady) != ""
  {
    CatalogsDisjoint(LogPipeline);
    assert ReasonFluentBitDSNotReady in LogPipelineMessages && ReasonDaemonSetNotReady in LogPipelineMessages;
    assert ReasonFluentBitDSReady in LogPipelineMessages && ReasonDaemonSetReady in LogPipelineMessages;
  }

  /** Deprecated trace reasons show the same text as the reasons that replace them. */
  lemma DeprecatedTraceReasonsAlias()
    ensures MessageForTracePipeline(ReasonTraceGatewayDeploymentNotReady) == MessageForTracePipeline(ReasonDeploymentNotReady) != ""
    ensures MessageForTracePipeline(ReasonTraceGatewayDeploymentReady) == MessageForTracePipeline(ReasonDeploymentReady) != ""
  {
    CatalogsDisjoint(TracePipeline);
    assert ReasonTraceGatewayDeploymentNotReady in TracePipelineMessages && ReasonDeploymentNotReady in TracePipelineMessages;
    assert ReasonTraceGatewayDeploymentReady in TracePipelineMessages && ReasonDeploymentReady in TracePipelineMessages;
  }

  /** The pipeline-count limit has one message for all kinds. */
  lemma MaxPipelinesExceededMessage(kind: PipelineKind)
    ensures MessageFor(kind, ReasonMaxPipelinesExceeded) == "Maximum pipeline count limit exceeded"
  {
  }
}
