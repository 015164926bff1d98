/**
 * The unit-test scenarios of the AgentgatewayParameters applier and of the
 * default Helm values generator, each stated as a lemma (pure code) or as a
 * client method whose postcondition is what the test asserts.
 */
module ApplierTests {
  import opened Wrappers
  import opened Json
  import opened Addresses
  import opened HelmValues
  import opened Overlays
  import opened Applier

  /** The bytes of an ASCII text, as a Go []byte conversion of a string literal gives them. */
  function AsciiBytes(s: string): (b: seq<bv8>)
    ensures |b| == |s|
  {
    seq(|s|, i requires 0 <= i < |s| => (s[i] as int % 256) as bv8)
  }

  // ---------------------------------------------------------------------------
  // ApplyToHelmValues

  /** Empty typed configuration. */
  const NoConfigs := Configs(None, None, [], None, None)

  /** Runs ApplyToHelmValues with `configs` on a fresh, empty Helm values section. */
  method ApplyToFreshValues(configs: Configs) returns (vals: HelmGateway)
    ensures fresh(vals)
    ensures vals.Snapshot() == ApplyConfigs(configs, Values(None, None, [], None, None, None))
  {
    var applier := new ParametersApplier(Some(Parameters(configs, NoOverlays)));
    vals := new HelmGateway();
    applier.ApplyToHelmValues(vals);
  }

  /** A configured registry, repository and tag all reach the image section. */
  method ImageScenario() returns (image: Option<HelmImage>)
    ensures image == Some(HelmImage(Some("custom.registry.io"), Some("custom/agentgateway"), Some("v1.0.0")))
  {
    var img := Image(Some("custom.registry.io"), Some("custom/agentgateway"), Some("v1.0.0"));
    var vals := ApplyToFreshValues(NoConfigs.(image := Some(img)));
    image := vals.image;
  }

  /** Configured limits and requests reach the resources section unchanged. */
  method ResourcesScenario() returns (resources: Option<ResourceRequirements>)
    ensures resources.Some?
    ensures "memory" in resources.value.limits && resources.value.limits["memory"] == Quantity("512Mi")
    ensures "cpu" in resources.value.limits && resources.value.limits["cpu"] == Quantity("500m")
  {
    var req := ResourceRequirements(
      map["memory" := Quantity("512Mi"), "cpu" := Quantity("500m")],
      map["memory" := Quantity("256Mi"), "cpu" := Quantity("250m")]);
    var vals := ApplyToFreshValues(NoConfigs.(resources := Some(req)));
    resources := vals.resources;
  }

  /** A configured env list reaches the env section with its length and order. */
  method EnvScenario() returns (env: seq<EnvVar>)
    ensures |env| == 2 && env[0].name == "CUSTOM_VAR" && env[1].name == "ANOTHER_VAR"
  {
    var vars := [EnvVar("CUSTOM_VAR", "custom_value"), EnvVar("ANOTHER_VAR", "another_value")];
    var vals := ApplyToFreshValues(NoConfigs.(env := vars));
    env := vals.env;
  }

  /** A raw configuration document reaches the values byte for byte. The document is the test's
      multi-line literal condensed to one line; the bytes pass through unread, so the text does not matter. */
  method RawConfigScenario() returns (raw: Option<seq<bv8>>, document: seq<bv8>)
    ensures raw == Some(document)
    ensures document == AsciiBytes("{\"tracing\": {\"otlpEndpoint\": \"http://jaeger:4317\"}, \"metrics\": {\"enabled\": true}}")
  {
    document := AsciiBytes("{\"tracing\": {\"otlpEndpoint\": \"http://jaeger:4317\"}, \"metrics\": {\"enabled\": true}}");
    var vals := ApplyToFreshValues(NoConfigs.(rawConfig := Some(document)));
    raw := vals.rawConfig;
  }

  /** A typed text logging format and a raw configuration with its own logging format both survive.
      The document is the test's multi-line literal condensed to one line. */
  method RawConfigWithLoggingScenario() returns (logging: Option<HelmLogging>, raw: Option<seq<bv8>>, document: seq<bv8>)
    ensures logging.Some? && logging.value.format == "text"
    ensures raw == Some(document)
    ensures document == AsciiBytes("{\"logging\": {\"format\": \"json\"}, \"tracing\": {\"otlpEndpoint\": \"http://jaeger:4317\"}}")
  {
    document := AsciiBytes("{\"logging\": {\"format\": \"json\"}, \"tracing\": {\"otlpEndpoint\": \"http://jaeger:4317\"}}");
    var vals := ApplyToFreshValues(NoConfigs.(logging := Some(Logging(Text)), rawConfig := Some(document)));
    logging, raw := vals.logging, vals.rawConfig;
  }

  // ---------------------------------------------------------------------------
  // ApplyOverlaysToObjects

  /** A Deployment named "test-deployment" with one replica. */
  method NewTestDeployment() returns (d: KubeObject)
    ensures fresh(d)
    ensures d.kind == Deployment && d.name == "test-deployment"
    ensures d.State() == ObjectState(map[], Object(map["replicas" := Number(1)]))
  {
    d := new KubeObject(Deployment, "test-deployment", map[], Object(map["replicas" := Number(1)]));
  }

  /** A Deployment overlay sets the replica count from 1 to 3 and adds its label. */
  method OverlayScenario() returns (err: Option<PatchError>, replicas: Json, overlayLabel: Option<string>)
    ensures err.None?
    ensures replicas == Number(3)
    ensures overlayLabel == Some("overlay-value")
  {
    var overlay := ResourceOverlay(
      Some(ObjectMetadata(map["overlay-label" := "overlay-value"])),
      Some(Object(map["replicas" := Number(3)])));
    var applier := new ParametersApplier(Some(Parameters(NoConfigs, Overlays(Some(overlay), None, None))));
    var d := NewTestDeployment();
    err := applier.ApplyOverlaysToObjects([d]);
    assert d in [d][..1];
    replicas := Member(d.spec, "replicas");
    overlayLabel := if "overlay-label" in d.labels then Some(d.labels["overlay-label"]) else None;
  }

  /** Nil parameters leave the replica count at 1 and report no error. */
  method OverlayNilParamsScenario() returns (err: Option<PatchError>, replicas: Json)
    ensures err.None?
    ensures replicas == Number(1)
  {
    var applier := new ParametersApplier(None);
    var d := NewTestDeployment();
    err := applier.ApplyOverlaysToObjects([d]);
    replicas := Member(d.spec, "replicas");
  }

  // ---------------------------------------------------------------------------
  // Load-balancer IP of the default Helm values

  function TestGateway(addrs: seq<GatewayAddress>): Gateway {
    Gateway("test-gateway", "default", addrs)
  }

  /** A single IPv4 address becomes the load-balancer IP. */
  lemma SingleIPv4Address(isIPv6: string -> bool)
    ensures DefaultHelmService(TestGateway([GatewayAddress(Some(IPAddressType), "203.0.113.10")]), isIPv6)
         == Success(HelmService(Some("LoadBalancer"), Some("203.0.113.10")))
  {
    assert "203.0.113.10" == DottedQuad("203", "0", "113", "10");
    DottedQuadIsIPv4("203", "0", "113", "10");
  }

  /** A single IPv6 address becomes the load-balancer IP. */
  lemma SingleIPv6Address(isIPv6: string -> bool)
    requires isIPv6("2001:db8::1")
    ensures DefaultHelmService(TestGateway([GatewayAddress(Some(IPAddressType), "2001:db8::1")]), isIPv6)
         == Success(HelmService(Some("LoadBalancer"), Some("2001:db8::1")))
  {
  }

  /** An address without a type is taken as an IP address. */
  lemma UntypedAddress(isIPv6: string -> bool)
    ensures DefaultHelmService(TestGateway([GatewayAddress(None, "192.0.2.1")]), isIPv6)
         == Success(HelmService(Some("LoadBalancer"), Some("192.0.2.1")))
  {
    assert "192.0.2.1" == DottedQuad("192", "0", "2", "1");
    DottedQuadIsIPv4("192", "0", "2", "1");
  }

  /** No addresses: a LoadBalancer service without a load-balancer IP. */
  lemma NoAddresses(isIPv6: string -> bool)
    ensures DefaultHelmService(TestGateway([]), isIPv6) == Success(HelmService(Some("LoadBalancer"), None))
  {
  }

  /** Two IP addresses: the "multiple addresses" error. */
  lemma TwoIPAddressesFail(isIPv6: string -> bool)
    ensures var r := DefaultHelmService(TestGateway([
              GatewayAddress(Some(IPAddressType), "203.0.113.10"),
              GatewayAddress(Some(IPAddressType), "203.0.113.11")]), isIPv6);
            r.Failure? && Contains(ErrorMessage(r.error), "multiple addresses")
  {
  }

  /** A single Hostname address: the "no valid IP address" error. */
  lemma HostnameAddressFails(isIPv6: string -> bool)
    ensures var r := DefaultHelmService(TestGateway([GatewayAddress(Some(HostnameAddressType), "example.com")]), isIPv6);
            r.Failure? && Contains(ErrorMessage(r.error), "no valid IP address")
  {
  }

  /** A single IP address whose value is not an IP literal: the "no valid IP address" error. */
  lemma InvalidIPAddressFails(isIPv6: string -> bool)
    requires IPv6Oracle(isIPv6)
    ensures var r := DefaultHelmService(TestGateway([GatewayAddress(Some(IPAddressType), "not-an-ip")]), isIPv6);
            r.Failure? && Contains(ErrorMessage(r.error), "no valid IP address")
  {
    NeitherDotNorColonIsNotIP("not-an-ip", isIPv6);
  }
}
