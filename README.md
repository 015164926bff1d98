# AgentgatewayParameters applier and load-balancer IP selection

A Dafny model of the part of kgateway's deployer that turns an
`AgentgatewayParameters` resource into Helm values and object overlays for
an agentgateway Gateway, and that derives the Gateway's load-balancer IP
from its `spec.addresses`. There are three behaviours:

- **Helm values applier** (`ApplyToHelmValues`). It copies the typed
  configuration of the parameters into the agentgateway section of the Helm
  values, field by field, in place:
  - each of image registry, repository and tag is copied on its own;
  - resources are copied whole;
  - a non-empty env list replaces the old one and keeps its order;
  - the logging format is written as its token;
  - the raw configuration bytes are copied unchanged.

  A field that is not set leaves the Helm value alone. The typed logging
  format and the raw configuration are never merged here. Nil parameters
  change nothing.
- **Overlay patcher** (`ApplyOverlaysToObjects`). For each generated object
  whose kind has an overlay, it updates the object in place:
  - the overlay's labels are upserted, and the overlay wins on a shared key;
  - the overlay's spec document is merged into the object's spec with JSON
    Merge Patch (section 2 of RFC 7386).

  Nil parameters change nothing. The list keeps its length, and each entry
  keeps its identity and kind.
- **Load-balancer IP selection** (`getDefaultAgentgatewayHelmValues`). The
  service of the default values is always of type `LoadBalancer`. An address
  without a type counts as an IP address. The outcome depends on the
  addresses:
  - no addresses: no IP is requested;
  - two or more IP addresses: a "multiple addresses" error;
  - addresses but none of IP type: a "no valid IP address" error;
  - exactly one IP address: its value is requested verbatim if it is an IP
    literal, and otherwise the result is a "no valid IP address" error.

Modules: `Wrappers` (Option, Result, substring test), `Json` (JSON values
and merge patch), `Addresses` (address types, IPv4 literals, resolution),
`HelmValues` (configuration, Helm values and the mutable values section),
`Overlays` (kinds, overlays and the mutable objects), `Applier` (the
parameters applier class and the default service values), and
`ApplierTests` (the unit-test scenarios as lemmas and client methods).

The production functions are modelled from what the repository's unit
tests in pkg/kgateway/deployer/agentgateway_parameters_test.go assert about
them; their own Go sources are not part of this model.

Modelling decisions:
- **Sole Hostname address.** One could read a sole Hostname address as
  giving no IP and no error. The test at lines 287-294 expects the "no valid
  IP address" error, and the model follows the test.
- **Mixed address lists.** The tests do not cover lists that mix a Hostname
  with an IP address. The model keeps only the IP-typed addresses as
  candidates and counts those. So `[Hostname, valid IP]` requests that IP,
  and `[Hostname, Hostname]` fails with "no valid IP address". On every list
  the tests use, this reading agrees with the simpler rule "0 addresses: no
  IP; more than one: multiple addresses; one: validate it"
  (`Addresses.SingleAddress`, `Addresses.AllIPTypedSeveral`).
- **IP literals.** The test file shows no parser call; the model assumes
  that production code asks Go's standard IP parser what counts as an IP
  literal:
  - IPv4 dotted decimal is written out (four fields of 1 to 3 digits, at
    most 255, no leading zero);
  - IPv6 text (section 2.2 of RFC 4291) is an oracle `isIPv6` passed in by
    the caller. The model assumes only that an IPv6 literal contains a colon
    (`Addresses.IPv6Oracle`).

## Model

| member | source | states |
|---|---|---|
| `Addresses.EffectiveType` | pkg/kgateway/deployer/agentgateway_parameters_test.go:262-269 | An address with no type is treated as IPAddress; a typed address keeps its type. |
| `Addresses.IPCandidates` | pkg/kgateway/deployer/agentgateway_parameters_test.go:246-303 | The candidate list is empty exactly when no address is IP-typed, has one entry per address when all are IP-typed, holds the value of every IP-typed address, and holds nothing else. |
| `Addresses.SoleCandidate` | pkg/kgateway/deployer/agentgateway_parameters_test.go:246-269 | There is exactly one candidate iff exactly one address is IP-typed, and that candidate is its value. |
| `Addresses.SeveralCandidates` | pkg/kgateway/deployer/agentgateway_parameters_test.go:276-285 | There are two or more candidates iff two distinct addresses are IP-typed. |
| `Addresses.DottedQuadIsIPv4` | pkg/kgateway/deployer/agentgateway_parameters_test.go:247-253 | Four octets joined by dots form an IPv4 literal. |
| `Addresses.NoDotIsNotIPv4` | pkg/kgateway/deployer/agentgateway_parameters_test.go:295-303 | A string without a dot is not an IPv4 literal. |
| `Addresses.NeitherDotNorColonIsNotIP` | pkg/kgateway/deployer/agentgateway_parameters_test.go:295-303 | A value with neither a dot nor a colon, such as "not-an-ip", is neither an IPv4 nor an IPv6 literal. |
| `Addresses.ResolveLoadBalancerIP` | pkg/kgateway/deployer/agentgateway_parameters_test.go:246-303 | Each of the four outcomes, in both directions, in terms of the candidates. An IP that is requested is an IP literal and the verbatim value of an IP-typed address. |
| `Addresses.ResolveOutcomes` | pkg/kgateway/deployer/agentgateway_parameters_test.go:246-303 | The four outcomes, in both directions, in terms of the addresses: no IP iff the list is empty; "multiple addresses" iff two addresses are IP-typed; the IP `ip` iff exactly one address is IP-typed, its value is `ip` and `ip` is an IP literal; "no valid IP address" iff the list is non-empty and has either no IP-typed address or a sole IP-typed address that is not an IP literal. |
| `Addresses.SingleAddress` | pkg/kgateway/deployer/agentgateway_parameters_test.go:246-303 | A one-address list yields the address's value when it is IP-typed and an IP literal, otherwise "no valid IP address". |
| `Addresses.AllIPTypedSeveral` | pkg/kgateway/deployer/agentgateway_parameters_test.go:276-285 | Two or more addresses, all IP-typed or untyped, always give "multiple addresses". |
| `Addresses.ErrorMessage` | pkg/kgateway/deployer/agentgateway_parameters_test.go:343-346 | The text of each error contains the phrase callers look for: "multiple addresses" or "no valid IP address". |
| `Json.MergePatch` | pkg/kgateway/deployer/agentgateway_parameters_test.go:103-145 | The merge patch rules of RFC 7386, member by member. A non-object patch replaces the target. Null members delete. Target members the patch does not mention survive. Scalar and array members are set verbatim. Object members are merge-patched recursively into the target's member. No other member appears. |
| `Json.MergePatchIdempotent` | pkg/kgateway/deployer/agentgateway_parameters_test.go:103-145 | Applying a merge patch twice equals applying it once. |
| `HelmValues.FormatToken` | pkg/kgateway/deployer/agentgateway_parameters_test.go:213-229 | The text logging format is written as "text" (and the JSON format as "json"), and the token determines the format. |
| `HelmValues.MergeImage` | pkg/kgateway/deployer/agentgateway_parameters_test.go:23-47 | Each image part that is set is taken from the configuration; each part that is not set keeps its previous value, absent if there was no image section. |
| `HelmValues.ApplyConfigs` | pkg/kgateway/deployer/agentgateway_parameters_test.go:23-101 | Each configured field replaces its Helm value: image part by part, resources whole, env as the same ordered list, logging as its token, raw config byte for byte. Unset fields and the service section stay as they were. |
| `HelmValues.RawConfigIndependentOfTypedFields` | pkg/kgateway/deployer/agentgateway_parameters_test.go:171-196 | The raw configuration in the output depends only on the raw configuration given, whatever typed fields are also set. |
| `HelmValues.TypedLoggingAndRawConfigSideBySide` | pkg/kgateway/deployer/agentgateway_parameters_test.go:198-231 | With both set, the typed logging token and the raw configuration bytes both reach the output and neither overwrites the other. |
| `HelmValues.HelmGateway.constructor` | pkg/kgateway/deployer/agentgateway_parameters_test.go:37-39 | A fresh agentgateway values section has every field unset. |
| `HelmValues.HelmGateway.ApplyImage` | pkg/kgateway/deployer/agentgateway_parameters_test.go:41-46 | The image section becomes the merge of the configured image into the previous one. |
| `HelmValues.HelmGateway.Apply` | pkg/kgateway/deployer/agentgateway_parameters_test.go:41-46 | The new values section is `ApplyConfigs` of the configuration and the old section. |
| `Overlays.OverlayFor` | pkg/kgateway/deployer/agentgateway_parameters_test.go:110-118 | A Deployment gets the Deployment overlay (and likewise Service and ServiceAccount). Any other kind gets none. |
| `Overlays.UpsertLabels` | pkg/kgateway/deployer/agentgateway_parameters_test.go:112-144 | The result has the keys of both maps. Overlay labels win on shared keys. Other labels are kept. |
| `Overlays.Patched` | pkg/kgateway/deployer/agentgateway_parameters_test.go:103-145 | An overlay upserts its labels when it has metadata and merge-patches the spec when it has a spec document. Otherwise each part is unchanged. |
| `Overlays.PatchedIdempotent` | pkg/kgateway/deployer/agentgateway_parameters_test.go:103-145 | Applying an overlay twice equals applying it once. |
| `Overlays.Overlaid` | pkg/kgateway/deployer/agentgateway_parameters_test.go:103-169 | An object whose kind has no overlay is unchanged; otherwise it is patched by its kind's overlay. |
| `Overlays.OverlaidIdempotent` | pkg/kgateway/deployer/agentgateway_parameters_test.go:103-145 | Overlaying an object twice equals overlaying it once. |
| `Overlays.FirstRejected` | pkg/kgateway/deployer/agentgateway_parameters_test.go:139-140 | The result is the index of the first object whose overlay cannot be applied. No earlier object's overlay is rejected. The result is the list length when no overlay is rejected. |
| `Overlays.KubeObject.constructor` | pkg/kgateway/deployer/agentgateway_parameters_test.go:125-136 | A new object has the given kind, name, labels and spec. |
| `Overlays.KubeObject.ApplyOverlay` | pkg/kgateway/deployer/agentgateway_parameters_test.go:139-144 | The object's new labels and spec are `Patched` of the overlay and its old state. |
| `Applier.OverlaysOf` | pkg/kgateway/deployer/agentgateway_parameters_test.go:147-169 | Nil parameters have no overlays; otherwise the parameters' own overlays apply. |
| `Applier.NoOverlaysChangeNothing` | pkg/kgateway/deployer/agentgateway_parameters_test.go:147-169 | Without overlays no object changes and no overlay is rejected. |
| `Applier.ParametersApplier.constructor` | pkg/kgateway/deployer/agentgateway_parameters_test.go:36 | The applier holds the given, possibly nil, parameters. |
| `Applier.ParametersApplier.ApplyToHelmValues` | pkg/kgateway/deployer/agentgateway_parameters_test.go:41-46 | Nil parameters leave the values unchanged. Otherwise the new values are `ApplyConfigs` of the configuration and the old values. |
| `Applier.ParametersApplier.ApplyOverlaysToObjects` | pkg/kgateway/deployer/agentgateway_parameters_test.go:139-144 | There is no error iff no object's overlay is rejected, and an error names the first rejected object's kind. Each object before that point is overlaid exactly once, even if it is listed twice. Every other object is unchanged. Nil parameters give no error and no change. |
| `Applier.DefaultHelmService` | pkg/kgateway/deployer/agentgateway_parameters_test.go:341-360 | Succeeds iff resolution succeeds. On success the service type is LoadBalancer and the load-balancer IP is the resolved one (absent when none). On failure it returns the resolution error and no values. |
| `ApplierTests.ApplyToFreshValues` | pkg/kgateway/deployer/agentgateway_parameters_test.go:36-41 | Applying a configuration to a fresh values section yields `ApplyConfigs` of it over all-unset values. |
| `ApplierTests.ImageScenario` | pkg/kgateway/deployer/agentgateway_parameters_test.go:23-47 | The registry, repository and tag reach the image section. |
| `ApplierTests.ResourcesScenario` | pkg/kgateway/deployer/agentgateway_parameters_test.go:49-77 | The memory limit 512Mi and CPU limit 500m reach the resources section. |
| `ApplierTests.EnvScenario` | pkg/kgateway/deployer/agentgateway_parameters_test.go:79-101 | Two env vars reach the values in order: CUSTOM_VAR, then ANOTHER_VAR. |
| `ApplierTests.RawConfigScenario` | pkg/kgateway/deployer/agentgateway_parameters_test.go:171-196 | The raw configuration bytes reach the values unchanged. |
| `ApplierTests.RawConfigWithLoggingScenario` | pkg/kgateway/deployer/agentgateway_parameters_test.go:198-231 | The logging format "text" and the raw configuration, which has its own logging format, are both present. |
| `ApplierTests.NewTestDeployment` | pkg/kgateway/deployer/agentgateway_parameters_test.go:125-136 | The test Deployment has one replica and no labels. |
| `ApplierTests.OverlayScenario` | pkg/kgateway/deployer/agentgateway_parameters_test.go:103-145 | A Deployment overlay gives no error, sets replicas from 1 to 3 and adds overlay-label=overlay-value. |
| `ApplierTests.OverlayNilParamsScenario` | pkg/kgateway/deployer/agentgateway_parameters_test.go:147-169 | Nil parameters give no error and leave replicas at 1. |
| `ApplierTests.SingleIPv4Address` | pkg/kgateway/deployer/agentgateway_parameters_test.go:246-253 | A single IPv4 address 203.0.113.10 becomes the load-balancer IP of a LoadBalancer service. |
| `ApplierTests.SingleIPv6Address` | pkg/kgateway/deployer/agentgateway_parameters_test.go:254-261 | A single IPv6 address 2001:db8::1 becomes the load-balancer IP. |
| `ApplierTests.UntypedAddress` | pkg/kgateway/deployer/agentgateway_parameters_test.go:262-269 | An untyped address 192.0.2.1 is taken as an IP and becomes the load-balancer IP. |
| `ApplierTests.NoAddresses` | pkg/kgateway/deployer/agentgateway_parameters_test.go:270-275 | No addresses: a LoadBalancer service and no load-balancer IP. |
| `ApplierTests.TwoIPAddressesFail` | pkg/kgateway/deployer/agentgateway_parameters_test.go:276-285 | Two IP addresses: an error containing "multiple addresses". |
| `ApplierTests.HostnameAddressFails` | pkg/kgateway/deployer/agentgateway_parameters_test.go:286-294 | A single Hostname address: an error containing "no valid IP address". |
| `ApplierTests.InvalidIPAddressFails` | pkg/kgateway/deployer/agentgateway_parameters_test.go:295-303 | A single IP address "not-an-ip": an error containing "no valid IP address". |

## Left out

- `Applier.DefaultHelmService`: it models only the service section of the generated default values. Control-plane connection settings (xDS host, port, TLS), listener ports and chart defaults are not modelled.
- Looking up the Gateway's intermediate representation through a replaceable package variable: this is test wiring, and the model reads the addresses directly.
- `Addresses.IsIPLiteral`: IPv6 literal syntax is not modelled, only what the caller's oracle decides. IPv6 zones and IPv4-in-IPv6 forms are left to that oracle.
- `Addresses.ErrorMessage`: only the phrases "multiple addresses" and "no valid IP address" are fixed. The rest of each message's wording is not known and is the model's own.
- Resource quantities are opaque values that are copied. Parsing and printing them ("512Mi", "500m") belongs to the Kubernetes quantity library.
- JSON byte decoding: spec patches are already-parsed JSON trees, and raw configuration is an opaque byte sequence. Malformed patch bytes, and a patched spec that fails to decode back into the typed object (a type mismatch), are not modelled. The only patch error modelled is a spec document that is not a JSON object.
- Kubernetes strategic-merge-patch list rules: the spec patch follows plain JSON Merge Patch, where arrays are replaced whole.
- JSON numbers are integers: floating-point values are not modelled.
- `Applier.ParametersApplier.ApplyOverlaysToObjects`: no test has an overlay that fails, so whether the loop stops at the first failure or goes on to the later objects is not visible. The model stops at the first rejected object and leaves it, and every later entry that is not listed before it, unchanged. Whether labels are upserted before the spec patch fails is not visible either; the model changes nothing in the rejected object.
- Metadata overlays carry labels only: annotations and other metadata are not modelled.
- Overlay kinds other than Deployment, Service and ServiceAccount are not modelled. Other kinds are never overlaid.
- `HelmValues.ApplyConfigs`: an env list replaces the Helm env only when it is non-empty. Go's distinction between a nil and an empty slice is not modelled.
- `Applier.ParametersApplier.ApplyToHelmValues`: it works on the agentgateway section of the Helm values. A missing section (a nil pointer) is not modelled.
- Environment variables sourced from secrets or config maps (`valueFrom`) are not modelled. An env var is a name and a value.
- Test-framework assertions and the table-driven test loop are not modelled. Each case is its own lemma or method.
