/**
 * Output configuration types shared by the pipeline resources: values given
 * in plain text or by a Secret reference, basic-auth options, and the OTLP
 * output together with its admission rule on protocol and path.
 */
module SharedTypes {
  import opened Wrappers
  import opened Kube

  /** Points at the attribute `key` of the Secret `namespace`/`name`. */
  datatype SecretKeyRef = SecretKeyRef(name: string, namespace: string, key: string)
  {
    /** The namespaced name of the referenced Secret. */
    function NamespacedName(): (n: Kube.NamespacedName)
      ensures n.name == name && n.namespace == namespace
    {
      Kube.NamespacedName(namespace, name)
    }
  }

  datatype ValueFromSource = ValueFromSource(secretKeyRef: Option<SecretKeyRef>)
  {
    /** A reference is usable when it names both the Secret and the key; the namespace may be empty. */
    predicate IsSecretKeyRef(): (r: bool)
      ensures r ==> secretKeyRef.Some? && secretKeyRef.value.NamespacedName().name != ""
    {
      secretKeyRef.Some? && secretKeyRef.value.name != "" && secretKeyRef.value.key != ""
    }
  }

  /** A value as plain text or as a reference to a resource. */
  datatype ValueType = ValueType(value: string, valueFrom: Option<ValueFromSource>)

  /** Whether a possibly absent value is given: as non-empty text, or as a usable Secret reference. */
  predicate ValueIsDefined(v: Option<ValueType>): (r: bool)
    ensures r ==> v.Some?
    ensures v.Some? && v.value.value != "" ==> r
    ensures r && v.value.value == "" ==> v.value.valueFrom.Some? && v.value.valueFrom.value.secretKeyRef.Some?
  {
    if v.None? then false
    else if v.value.value != "" then true
    else v.value.valueFrom.Some? && v.value.valueFrom.value.IsSecretKeyRef()
  }

  datatype BasicAuthOptions = BasicAuthOptions(user: ValueType, password: ValueType)
  {
    /** Both credentials must be given. */
    predicate IsDefined(): (r: bool)
      ensures r ==> (user.value != "" || user.valueFrom.Some?) && (password.value != "" || password.valueFrom.Some?)
    {
      ValueIsDefined(Some(user)) && ValueIsDefined(Some(password))
    }
  }

  datatype AuthenticationOptions = AuthenticationOptions(basic: Option<BasicAuthOptions>)

  datatype Header = Header(name: string, value: ValueType, prefix: string)

  const OTLPProtocolHTTP := "http"
  const OTLPProtocolGRPC := "grpc"

  /**
   * An OTLP output. `protocol` and `path` are optional in the stored object
   * (`None` when the field is absent), which is what the admission rule's
   * `has(...)` tests. TLS options are not part of this model.
   */
  datatype OTLPOutput = OTLPOutput(
    protocol: Option<string>,
    endpoint: ValueType,
    path: Option<string>,
    authentication: Option<AuthenticationOptions>,
    headers: seq<Header>)

  /** The admission rule on an OTLP output: a path is only available with the HTTP protocol. */
  predicate PathRuleHolds(o: OTLPOutput): (r: bool)
    ensures r ==> o.protocol.Some?
    ensures r && o.path.Some? && o.path.value != "" ==> o.protocol == Some(OTLPProtocolHTTP)
  {
    || ((o.path.None? || |o.path.value| <= 0) && (o.protocol.Some? && o.protocol.value == OTLPProtocolGRPC))
    || (o.protocol.Some? && o.protocol.value == OTLPProtocolHTTP)
  }

  /** The defaulting applied before the rule is checked: an absent protocol becomes gRPC. */
  function WithDefaultProtocol(o: OTLPOutput): (d: OTLPOutput)
    ensures d.protocol.Some?
    ensures o.protocol.None? ==> d.protocol == Some(OTLPProtocolGRPC)
    ensures o.protocol.Some? ==> d == o
    ensures d == o.(protocol := d.protocol)
  {
    if o.protocol.None? then o.(protocol := Some(OTLPProtocolGRPC)) else o
  }

  /** A nil value is not defined. */
  lemma NilValueNotDefined()
    ensures !ValueIsDefined(None)
  {
  }

  /** Non-empty text defines the value whatever its reference says. */
  lemma PlainValueWins(text: string, from: Option<ValueFromSource>)
    requires text != ""
    ensures ValueIsDefined(Some(ValueType(text, from)))
  {
  }

  /** Without text, the value is defined exactly when it carries a usable Secret reference. */
  lemma EmptyValueNeedsSecretRef(v: ValueType)
    requires v.value == ""
    ensures ValueIsDefined(Some(v)) <==>
      v.valueFrom.Some? && v.valueFrom.value.secretKeyRef.Some? &&
      v.valueFrom.value.secretKeyRef.value.name != "" && v.valueFrom.value.secretKeyRef.value.key != ""
  {
  }

  /** The namespace of a reference plays no part in whether it is usable. */
  lemma SecretRefNamespaceNotRequired(name: string, namespace: string, other: string, key: string)
    ensures ValueFromSource(Some(SecretKeyRef(name, namespace, key))).IsSecretKeyRef()
        == ValueFromSource(Some(SecretKeyRef(name, other, key))).IsSecretKeyRef()
    ensures ValueFromSource(Some(SecretKeyRef(name, "", key))).IsSecretKeyRef() <==> name != "" && key != ""
  {
  }

  /** Basic auth is defined exactly when both its user and its password are. */
  lemma BasicAuthNeedsBoth(b: BasicAuthOptions)
    ensures b.IsDefined() <==> ValueIsDefined(Some(b.user)) && ValueIsDefined(Some(b.password))
    ensures b.IsDefined() <==>
      && (b.user.value != "" || (b.user.valueFrom.Some? && b.user.valueFrom.value.IsSecretKeyRef()))
      && (b.password.value != "" || (b.password.valueFrom.Some? && b.password.valueFrom.value.IsSecretKeyRef()))
    ensures b.user.value == "" && b.user.valueFrom.None? ==> !b.IsDefined()
  {
  }

  /** The namespaced name forgets the key: two references that differ only in their keys name one Secret. */
  lemma NamespacedNameDropsKey(r: SecretKeyRef, key: string)
    ensures r.NamespacedName() == r.(key := key).NamespacedName()
    ensures r.NamespacedName() == Kube.NamespacedName(r.namespace, r.name)
  {
  }

  /** The admission rule, case by case: HTTP admits any path, gRPC only an empty one, and no protocol is no choice. */
  lemma PathRuleCases(o: OTLPOutput)
    ensures o.protocol == Some(OTLPProtocolHTTP) ==> PathRuleHolds(o)
    ensures o.protocol == Some(OTLPProtocolGRPC) ==> (PathRuleHolds(o) <==> o.path.None? || o.path.value == "")
    ensures o.protocol.None? ==> !PathRuleHolds(o)
    ensures o.protocol.Some? && o.protocol.value != OTLPProtocolHTTP && o.protocol.value != OTLPProtocolGRPC ==> !PathRuleHolds(o)
  {
  }

  /** Once defaulted, an output without a path is always admitted, and one with a path only over HTTP. */
  lemma DefaultedPathRule(o: OTLPOutput)
    requires o.protocol.None? || o.protocol.value in {OTLPProtocolHTTP, OTLPProtocolGRPC}
    ensures PathRuleHolds(WithDefaultProtocol(o)) <==>
      (o.path.None? || o.path.value == "" || o.protocol == Some(OTLPProtocolHTTP))
  {
  }
}
