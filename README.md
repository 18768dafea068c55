# Telemetry pipeline operator: reason catalog, DaemonSet readiness and annotation, output types, LogPipeline admission

This project models four pieces of the telemetry operator in Dafny and proves properties about them:

- **Reason catalog** (`Conditions`). The constant condition types, reason codes and message tables. `Message` consults the shared table first, then the table of the pipeline kind, and returns `""` for a reason known to neither. The lemmas show three things. The shared table's key set is disjoint from each kind's table. So the lookup equals a lookup in the union of the two tables, in either order. An empty message occurs exactly for unknown reasons. They also fix the per-reason texts for flow health, gateway throttling, deprecated aliases and the pipeline-count limit.
- **DaemonSet readiness and annotation** (`DaemonSets`). The cluster client is a class holding a store `objects` of DaemonSets, the fault that the next read or write would report, and a log of every patch request sent. `DaemonSetProber.IsReady` only reads. Its result is "rolled out": the observed generation equals the generation, the updated count equals the desired count, and the ready count is at least the desired count. A DaemonSet that is not found is not ready, and that is no error; any other read failure is an error. `DaemonSetAnnotator.SetAnnotation` reads the object, compares, and writes. It sends no patch when a non-nil annotation map already yields the value. Otherwise it writes the object with only that annotation changed. The lemmas prove this is idempotent.
- **Output value types** (`SharedTypes`). Values given as text or as a Secret reference, the definedness rules, the Secret's namespaced name, basic-auth options, and the OTLP output's admission rule relating protocol and path (with the gRPC default).
- **LogPipeline admission** (`LogPipelineWebhook`). `ValidateLogPipeline` lists the pipelines and then runs four validators in a fixed order: pipeline count, the pipeline's own rules, variables, files. The first error wins, and later steps provably do not affect the result. `Handle` maps the outcome to a response:
  - 400 for a decode error;
  - 403 with reason `InvalidConfiguration` and the error's message for a rejection;
  - allowed with exactly one warning, which names the pipeline, for a custom plugin;
  - otherwise allowed with "LogPipeline validation successful".

The model follows the code on these points, where a reader might expect otherwise:

- The message lookup consults the shared table before the kind's table. A kind-first order is not what the code does. `Conditions.MessageIsUnionLookup` proves that both orders give the same result.
- The flow-health condition type is `"TelemetryFlowHealthy"`.
- `SetAnnotation` does no conflict detection. Its merge patch carries no resource version, so only "a failed patch is returned as an error" is modelled.
- The annotation write is skipped by `map[key] == value` on a non-nil map. So an empty value for an absent key is treated as already set. A nil map is always written, even with an empty value. (`DaemonSets.EmptyValueForAbsentKeySkipsWrite`, `DaemonSets.NilAnnotationsAlwaysWritten`.)
- A rejected pipeline always gets the reason `InvalidConfiguration`, with the failing step's text as the message. The step is the list call or one of the four validators, and there is no reason code per step. So a failure to list the pipelines, a transport failure rather than a configuration error, is also answered with 403 `InvalidConfiguration`. (`LogPipelineWebhook.ValidatingWebhookHandler.Handle`.)
- `IsSecretKeyRef` ignores the namespace, although the field's documentation says the namespace must be given. (`SharedTypes.SecretRefNamespaceNotRequired`.)

External collaborators are modelled as inputs:

- The cluster client is `DaemonSets.Client`. Its fault fields stand for transport and server failures.
- The webhook's list call is `listed`.
- The decoder and the three validators are function-valued fields of the handler.
- The pipeline's own `Validate()` and `ContainsCustomPlugin()` become the fields `validationError` and `containsCustomPlugin` of `LogPipelineWebhook.LogPipeline`.
- Errors are opaque values: a wrapped client error, or a message.

## Model

| member | source | states |
|---|---|---|
| Conditions.CommonReasons | internal/conditions/conditions.go:61-70 | the shared table holds exactly the eight shared reasons (no-pipeline, secret missing, pipeline limit, five TLS reasons) |
| Conditions.CommonReasonsNotInLogTable | internal/conditions/conditions.go:98-110 | none of the shared reasons has an entry in the log table |
| Conditions.CommonReasonsNotInTraceTable | internal/conditions/conditions.go:85-96 | none of the shared reasons has an entry in the trace table |
| Conditions.CommonReasonsNotInMetricTable | internal/conditions/conditions.go:72-83 | none of the shared reasons has an entry in the metric table |
| Conditions.CatalogsDisjoint | internal/conditions/conditions.go:61-110 | for every kind, the shared table's keys and the kind table's keys are disjoint, so precedence never hides a kind-specific entry |
| Conditions.MessagesNonEmpty | internal/conditions/conditions.go:61-110 | every message stored in any table is non-empty |
| Conditions.CommonReasonsAgree | internal/conditions/conditions.go:112-127 | a shared reason gets the shared message from all three MessageFor functions |
| Conditions.SpecializedReasonsFallBack | internal/conditions/conditions.go:124-130 | a reason absent from the shared table but present in the kind's table gets the kind's message |
| Conditions.EmptyMessageIffUnknown | internal/conditions/conditions.go:124-131 | the message is "" exactly when the reason is in neither the shared nor the kind's table (both directions) |
| Conditions.MessageIsUnionLookup | internal/conditions/conditions.go:124-131 | the lookup equals a lookup in the union of the two tables, whichever table is given precedence |
| Conditions.FlowHealthyMessages | internal/conditions/conditions.go:82 | the Healthy reason reads "No problems detected in the log/trace/metric flow" per kind (lines 82, 95, 109) |
| Conditions.GatewayThrottlingNotForLogs | internal/conditions/conditions.go:81-110 | GatewayThrottling gives "" for logs and a non-empty message for traces and metrics (lines 81, 94, 98-110) |
| Conditions.DeprecatedLogReasonsAlias | internal/conditions/conditions.go:99-102 | FluentBitDaemonSet(Not)Ready shows the same non-empty text as DaemonSet(Not)Ready for logs |
| Conditions.DeprecatedTraceReasonsAlias | internal/conditions/conditions.go:86-89 | TraceGatewayDeployment(Not)Ready shows the same non-empty text as Deployment(Not)Ready for traces |
| Conditions.Message | internal/conditions/conditions.go:124-132 | a shared reason gets the shared text; otherwise a reason of the given table gets that table's text, and a reason of neither gets ""; the result is "" or a stored message (EmptyMessageIffUnknown and MessageIsUnionLookup give the iff and the union view) |
| Conditions.MessageForLogPipeline | internal/conditions/conditions.go:112-114 | shared reasons keep the shared text; a non-empty message is only returned for a reason of the shared or the log table (CommonReasonsAgree, EmptyMessageIffUnknown) |
| Conditions.MessageForTracePipeline | internal/conditions/conditions.go:116-118 | shared reasons keep the shared text; a non-empty message is only returned for a reason of the shared or the trace table (CommonReasonsAgree, EmptyMessageIffUnknown) |
| Conditions.MessageForMetricPipeline | internal/conditions/conditions.go:120-122 | shared reasons keep the shared text; a non-empty message is only returned for a reason of the shared or the metric table (CommonReasonsAgree, EmptyMessageIffUnknown) |
| Conditions.MaxPipelinesExceededMessage | internal/conditions/conditions.go:64 | MaxPipelinesExceeded reads "Maximum pipeline count limit exceeded" for every kind (lines 64, 112-122) |
| SharedTypes.SecretKeyRef.NamespacedName | apis/telemetry/v1beta1/shared_types.go:44-46 | the namespaced name carries the reference's name and namespace |
| SharedTypes.NamespacedNameDropsKey | apis/telemetry/v1beta1/shared_types.go:44-46 | references differing only in their key give the same namespaced name, namely (namespace, name) |
| SharedTypes.ValueIsDefined | apis/telemetry/v1beta1/shared_types.go:14-24 | defined only for a present value; non-empty text defines it; with empty text it needs a Secret reference (NilValueNotDefined, PlainValueWins, EmptyValueNeedsSecretRef) |
| SharedTypes.ValueFromSource.IsSecretKeyRef | apis/telemetry/v1beta1/shared_types.go:31-33 | a usable reference is present and names a Secret (SecretRefNamespaceNotRequired gives the iff) |
| SharedTypes.BasicAuthOptions.IsDefined | apis/telemetry/v1beta1/shared_types.go:98-100 | defined basic auth has text or a reference for both user and password (BasicAuthNeedsBoth gives the iff) |
| SharedTypes.NilValueNotDefined | apis/telemetry/v1beta1/shared_types.go:14-17 | a nil value is not defined |
| SharedTypes.PlainValueWins | apis/telemetry/v1beta1/shared_types.go:19-21 | non-empty text defines the value whatever valueFrom holds |
| SharedTypes.EmptyValueNeedsSecretRef | apis/telemetry/v1beta1/shared_types.go:23-33 | with empty text the value is defined iff valueFrom and its secretKeyRef are present with non-empty name and key |
| SharedTypes.SecretRefNamespaceNotRequired | apis/telemetry/v1beta1/shared_types.go:31-33 | whether a reference is usable does not depend on its namespace; with no namespace it is usable iff name and key are non-empty |
| SharedTypes.BasicAuthNeedsBoth | apis/telemetry/v1beta1/shared_types.go:98-100 | basic auth is defined iff user and password are both defined, that is iff each has non-empty text or a Secret reference with non-empty name and key; an empty user with no reference makes it undefined |
| SharedTypes.PathRuleHolds | apis/telemetry/v1beta1/shared_types.go:65 | the rule demands a protocol, and a non-empty path only with HTTP (PathRuleCases gives every case) |
| SharedTypes.WithDefaultProtocol | apis/telemetry/v1beta1/shared_types.go:67-70 | an absent protocol becomes Some("grpc"); a present one is left alone; every other field is unchanged |
| SharedTypes.PathRuleCases | apis/telemetry/v1beta1/shared_types.go:65 | the path rule admits HTTP with any path, gRPC only with an absent or empty path, and nothing without or with another protocol |
| SharedTypes.DefaultedPathRule | apis/telemetry/v1beta1/shared_types.go:65-70 | for an enum-valid protocol, after defaulting the rule holds iff the path is absent or empty or the protocol is HTTP |
| DaemonSets.Client.Get | internal/k8sutils/daemonset.go:22 | a successful read returns the stored object, which carries the requested name; not-found exactly when there is no fault and no such object |
| DaemonSets.Client.Patch | internal/k8sutils/daemonset.go:59-61 | a patch request is always logged; it replaces the stored object on success and returns the transport fault or not-found otherwise, the store unchanged |
| DaemonSets.DaemonSetProber.IsReady | internal/k8sutils/daemonset.go:18-38 | ready iff the object exists and observedGeneration == generation, updated == desired and ready >= desired; not-found gives (false, no error); any other read failure gives false with that error wrapped; nothing is written |
| DaemonSets.RolledOut | internal/k8sutils/daemonset.go:37 | rolled out only when the status describes the current generation and at least as many pods are ready as run the current template (StaleStatusNotReady, ReadinessExample) |
| DaemonSets.StaleStatusNotReady | internal/k8sutils/daemonset.go:37 | a status whose observed generation differs from the generation is never ready, whatever the counters |
| DaemonSets.ReadinessExample | internal/k8sutils/daemonset.go:31-37 | generation 5 / observed 5 / desired, updated, ready 3 is ready; observed 4 is not |
| DaemonSets.DaemonSetAnnotator.SetAnnotation | internal/k8sutils/daemonset.go:44-64 | a read error (not-found included) is returned wrapped with no patch sent; an already-set annotation returns success with no patch; otherwise exactly one patch, of the fetched object with the annotation set, is sent, stored on success, and a patch error is returned wrapped |
| DaemonSets.AlreadyAnnotated | internal/k8sutils/daemonset.go:51-55 | only a non-nil map can count as already annotated; for a non-empty value, exactly when the key is present with that value (EmptyValueForAbsentKeySkipsWrite gives the empty-value case) |
| DaemonSets.Annotated | internal/k8sutils/daemonset.go:50-57 | the result maps key to value and differs from the input only in its pod-template annotations (AnnotatedChangesOnlyKey, AnnotatedIsAnnotated) |
| DaemonSets.AnnotatedChangesOnlyKey | internal/k8sutils/daemonset.go:50-57 | the patched object maps key to value, keeps every other annotation and every other field; a nil map becomes {key: value} |
| DaemonSets.AnnotatedIsAnnotated | internal/k8sutils/daemonset.go:53-57 | after annotating, the object already carries the annotation, and annotating again changes nothing |
| DaemonSets.EmptyValueForAbsentKeySkipsWrite | internal/k8sutils/daemonset.go:53-55 | with a non-nil map, an empty value for an absent key counts as already set (Go's zero-value lookup) |
| DaemonSets.NilAnnotationsAlwaysWritten | internal/k8sutils/daemonset.go:51-52 | a nil annotation map is never treated as already set |
| DaemonSets.SetAnnotationTwice | internal/k8sutils/daemonset.go:44-64 | two calls with the same key and value, with the client's faults unchanged between the two calls: if the first succeeds, the second succeeds too and sends no patch; in all exactly one patch, of the annotated object, is sent when the annotation was not already set, none otherwise; the store holds the annotation |
| LogPipelineWebhook.FirstFailure | webhook/logpipeline/webhook.go:115-133 | the index returned has only passing steps before it and a failing step at it, or is the length when all pass |
| LogPipelineWebhook.FirstError | webhook/logpipeline/webhook.go:115-135 | no error iff every step passes; otherwise the error is one of the steps' errors |
| LogPipelineWebhook.FirstErrorAt | webhook/logpipeline/webhook.go:115-133 | when step k is the first to fail, its error is the result |
| LogPipelineWebhook.LaterStepsNotConsulted | webhook/logpipeline/webhook.go:115-133 | two step sequences equal up to and including the first failure give the same result: later validators have no say |
| LogPipelineWebhook.ValidatingWebhookHandler.ValidationSteps | webhook/logpipeline/webhook.go:115-133 | the steps are the four validators' outcomes, four of them |
| LogPipelineWebhook.ValidatingWebhookHandler.ValidateLogPipeline | webhook/logpipeline/webhook.go:107-136 | no error iff listing and all four validators succeed; a list failure is the result; otherwise the error is one of the validators' |
| LogPipelineWebhook.ValidatingWebhookHandler.ListFailureComesFirst | webhook/logpipeline/webhook.go:110-113 | a list failure is returned, and any handler with the same list outcome gives the same result whatever its validators |
| LogPipelineWebhook.ValidatingWebhookHandler.ValidatorOrder | webhook/logpipeline/webhook.go:115-133 | the max-pipelines error wins, then the pipeline's own, then variables, then files |
| LogPipelineWebhook.ValidatingWebhookHandler.Handle | webhook/logpipeline/webhook.go:63-105 | decode error: not allowed, 400, its message; rejection: not allowed, 403, "InvalidConfiguration", the error's message; custom plugin: allowed, no status, one warning naming the pipeline; else allowed with "LogPipeline validation successful"; allowed iff decoded and valid |
| LogPipelineWebhook.CustomPluginWarning | webhook/logpipeline/webhook.go:89-92 | the custom-plugin warning starts with "Logpipeline '", holds the pipeline name right after "Logpipeline '" and ends with the documentation link |

## Left out

- The condition resolver is not part of this model. It covers the mapping to FlowHealthy, the mirroring into the deprecated Running/Pending types, and holding the previous state when a probe returns Unknown. The flow-health prober and its classification thresholds, and the Deployment readiness prober, are not part of it either. None of them is implemented in the modelled files.
- The flow-health prober mock (internal/reconciler/tracepipeline/mocks/flow_health_prober.go) is left out. It is generated test code.
- The end-to-end test (test/e2e/overrides_test.go) is left out. So are the overrides fixture (test/testkit/kyma/overrides/overrides.go) and the label options (test/e2e/testkit/k8s/label_opts.go). They are test plumbing, not operator logic.
- The `%s` substitution into the TLS messages is left out. The templates are stored verbatim.
- `context`, logging, and the text of the `fmt.Errorf` wrappers are left out. A wrapped error is the constructor `GetFailed`/`PatchFailed` of the name and the client's error.
- DaemonSets.Client.Patch: replaces the stored object instead of applying a JSON merge patch computed against the fetched copy. Without a concurrent writer the two agree, and concurrency is not modelled. The source does no conflict detection, so none is modelled. The store also keeps `generation` unchanged, whereas the API server increments it on a pod-template change; the model therefore does not capture that an annotation write restarts the rollout and makes `IsReady` false until the status catches up.
- Timeouts and cancellation of client calls are left out. The client's faults are fields of the store, set by the caller, and are not derived from any transport. No call changes them, so a transient failure of a later read (for instance the second read in `DaemonSets.SetAnnotationTwice`) is not modelled.
- Counter widths (int32/int64) are left out. The readiness check only compares counters and never does arithmetic on them, so unbounded integers lose nothing.
- The internals of the decoder, the client's List, the max-pipelines, variables and files validators, `LogPipeline.Validate` and `ContainsCustomPlugin` are left out. They are not part of this model and are abstract inputs.
- The admission library's response builders are assumed, not modelled from its source: `Errored(code, err)` is not allowed, has that code and the error's message; `Allowed(msg)` is allowed with code 200 and that message.
- Nil receivers are left out. `ValueFromSource.IsSecretKeyRef`, `SecretKeyRef.NamespacedName` and `BasicAuthOptions.IsDefined` dereference their receiver without a nil check and would panic on nil. The model's values cannot be nil, so this case is not covered. Only the value's own definedness check (`SharedTypes.ValueIsDefined`) handles nil.
- The TLS options of an OTLP output are left out. That type is not part of this model. Authentication options and headers are carried but have no logic of their own.
- The `grpc;http` enum constraint on the protocol is left out. It appears only as the precondition of `SharedTypes.DefaultedPathRule`.
