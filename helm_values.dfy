/**
 * The typed configuration section of AgentgatewayParameters and the Helm
 * values record of the agentgateway chart that it is projected onto.
 *
 * Every configuration field is optional. A field that is set replaces the
 * corresponding Helm value; a field that is not set leaves the Helm value as
 * it was. The typed logging format and the raw configuration document travel
 * side by side: this layer never merges one into the other (the chart's
 * template does that later).
 */
module HelmValues {
  import opened Wrappers

  /** A container image reference whose three parts are set independently. */
  datatype Image = Image(registry: Option<string>, repository: Option<string>, tag: Option<string>)

  /** A resource quantity such as "512Mi" or "500m", kept in the quantity library's own canonical text. */
  datatype Quantity = Quantity(canonical: string)

  /** Limits and requests, keyed by resource name ("cpu", "memory", ...). */
  datatype ResourceRequirements = ResourceRequirements(limits: map<string, Quantity>, requests: map<string, Quantity>)

  /** One environment variable of the gateway container. */
  datatype EnvVar = EnvVar(name: string, value: string)

  /** The typed logging formats. */
  datatype LoggingFormat = Text | Json

  datatype Logging = Logging(format: LoggingFormat)

  /** The typed configuration of an AgentgatewayParameters resource; raw config is the undecoded JSON bytes. */
  datatype Configs = Configs(
    image: Option<Image>,
    resources: Option<ResourceRequirements>,
    env: seq<EnvVar>,
    logging: Option<Logging>,
    rawConfig: Option<seq<bv8>>)

  /** The image section of the Helm values. */
  datatype HelmImage = HelmImage(registry: Option<string>, repository: Option<string>, tag: Option<string>)

  /** The logging section of the Helm values: the format as its lower-case token. */
  datatype HelmLogging = HelmLogging(format: string)

  /** The service section of the Helm values. */
  datatype HelmService = HelmService(serviceType: Option<string>, loadBalancerIP: Option<string>)

  /** A snapshot of every Helm value the model tracks. */
  datatype Values = Values(
    image: Option<HelmImage>,
    resources: Option<ResourceRequirements>,
    env: seq<EnvVar>,
    logging: Option<HelmLogging>,
    rawConfig: Option<seq<bv8>>,
    service: Option<HelmService>)

  /** The token a logging format is written as. */
  function FormatToken(f: LoggingFormat): (token: string)
    ensures f == Text <==> token == "text"
    ensures f == Json <==> token == "json"
  {
    match f
    case Text => "text"
    case Json => "json"
  }

  /**
   * The image section after applying `cfg`: every part `cfg` sets is taken
   * from `cfg`, every other part keeps the value it had in `current`
   * (absent when there was no image section yet).
   */
  function MergeImage(cfg: Image, current: Option<HelmImage>): (r: HelmImage)
    ensures cfg.registry.Some? ==> r.registry == cfg.registry
    ensures cfg.repository.Some? ==> r.repository == cfg.repository
    ensures cfg.tag.Some? ==> r.tag == cfg.tag
    ensures cfg.registry.None? ==> r.registry == (if current.Some? then current.value.registry else None)
    ensures cfg.repository.None? ==> r.repository == (if current.Some? then current.value.repository else None)
    ensures cfg.tag.None? ==> r.tag == (if current.Some? then current.value.tag else None)
  {
    var base := current.GetOr(HelmImage(None, None, None));
    HelmImage(
      if cfg.registry.Some? then cfg.registry else base.registry,
      if cfg.repository.Some? then cfg.repository else base.repository,
      if cfg.tag.Some? then cfg.tag else base.tag)
  }

  /** The Helm values after projecting the configuration `c` onto `v`. */
  function ApplyConfigs(c: Configs, v: Values): (r: Values)
    ensures c.image.None? ==> r.image == v.image
    ensures c.image.Some? ==> r.image == Some(MergeImage(c.image.value, v.image))
    ensures r.resources == if c.resources.Some? then c.resources else v.resources
    // a non-empty env list replaces the old one wholesale, in order, duplicates included
    ensures r.env == if |c.env| > 0 then c.env else v.env
    ensures r.logging == if c.logging.Some? then Some(HelmLogging(FormatToken(c.logging.value.format))) else v.logging
    // the raw configuration is carried byte for byte, whatever typed fields are set
    ensures r.rawConfig == if c.rawConfig.Some? then c.rawConfig else v.rawConfig
    ensures r.service == v.service
  {
    Values(
      if c.image.Some? then Some(MergeImage(c.image.value, v.image)) else v.image,
      if c.resources.Some? then c.resources else v.resources,
      if |c.env| > 0 then c.env else v.env,
      if c.logging.Some? then Some(HelmLogging(FormatToken(c.logging.value.format))) else v.logging,
      if c.rawConfig.Some? then c.rawConfig else v.rawConfig,
      v.service)
  }

  /** The raw configuration in the output depends only on the raw configuration given, never on the typed fields. */
  lemma RawConfigIndependentOfTypedFields(c1: Configs, c2: Configs, v: Values)
    requires c1.rawConfig == c2.rawConfig
    ensures ApplyConfigs(c1, v).rawConfig == ApplyConfigs(c2, v).rawConfig
  {
  }

  /** With both the typed logging format and a raw configuration given, both reach the output unchanged. */
  lemma TypedLoggingAndRawConfigSideBySide(c: Configs, v: Values)
    requires c.logging.Some? && c.rawConfig.Some?
    ensures ApplyConfigs(c, v).logging == Some(HelmLogging(FormatToken(c.logging.value.format)))
    ensures ApplyConfigs(c, v).rawConfig == c.rawConfig
  {
  }

  /** The agentgateway section of the Helm values, owned by the caller and updated in place. */
  class HelmGateway {
    var image: Option<HelmImage>
    var resources: Option<ResourceRequirements>
    var env: seq<EnvVar>
    var logging: Option<HelmLogging>
    var rawConfig: Option<seq<bv8>>
    var service: Option<HelmService>

    /** The current values of every tracked field. */
    function Snapshot(): Values
      reads this
    {
      Values(image, resources, env, logging, rawConfig, service)
    }

    /** An empty section: every field unset. */
    constructor ()
      ensures Snapshot() == Values(None, None, [], None, None, None)
    {
      image, resources, env, logging, rawConfig, service := None, None, [], None, None, None;
    }

    /** Sets the image parts that `cfg` sets, creating the image section when there is none. */
    method ApplyImage(cfg: Image)
      modifies this`image
      ensures image == Some(MergeImage(cfg, old(image)))
    {
      var img := image.GetOr(HelmImage(None, None, None));
      if cfg.registry.Some? {
        img := img.(registry := cfg.registry);
      }
      if cfg.repository.Some? {
        img := img.(repository := cfg.repository);
      }
      if cfg.tag.Some? {
        img := img.(tag := cfg.tag);
      }
      image := Some(img);
    }

    /** Projects the configuration `c` onto this section, field by field. */
    method Apply(c: Configs)
      modifies this
      ensures Snapshot() == ApplyConfigs(c, old(Snapshot()))
    {
      if c.image.Some? {
        ApplyImage(c.image.value);
      }
      if c.resources.Some? {
        resources := c.resources;
      }
      if |c.env| > 0 {
        env := c.env;
      }
      if c.logging.Some? {
        logging := Some(HelmLogging(FormatToken(c.logging.value.format)));
      }
      if c.rawConfig.Some? {
        rawConfig := c.rawConfig;
      }
    }
  }
}
