/** The user-facing configuration, its defaults, and how a reconciliation merges the two. */
module Settings {
  import opened Wrappers

  type int32 = x: int | -0x8000_0000 <= x < 0x8000_0000

  /** The ingress provider is a plain string in the API; `Other` is any string beyond the documented values. */
  datatype Provider = Unset | KubernetesIngress | KubernetesIngressNGINX | Other(name: string)

  datatype TraefikSpec = TraefikSpec(replicas: int32, provider: Provider, logLevel: string, dashboard: bool)

  /** The extension's raw provider config after the decoder has looked at it. */
  datatype ProviderConfig = Absent | Undecodable | Decoded(spec: TraefikSpec)

  datatype Config = Config(replicas: int32, provider: Provider, logLevel: string, dashboard: bool) {

    function IngressClassName(): string {
      if provider == KubernetesIngressNGINX then "nginx" else "traefik"
    }

    function Controller(): string {
      if provider == KubernetesIngressNGINX then "k8s.io/ingress-nginx" else "traefik.io/ingress-controller"
    }
  }

  const DEFAULT_CONFIG := Config(2, KubernetesIngress, "Info", false)

  const VALID_LOG_LEVELS := {"Debug", "Info", "Warn", "Error", "Fatal", "Panic"}

  datatype SettingsError = InvalidLogLevel(level: string)

  predicate LevelRejected(provided: ProviderConfig) {
    provided.Decoded? && provided.spec.logLevel != "" && provided.spec.logLevel !in VALID_LOG_LEVELS
  }

  /** Whatever the user has set is what the reconciliation runs with. */
  predicate TakesOver(provided: ProviderConfig, cfg: Config) {
    provided.Decoded? ==>
      var s := provided.spec;
      && (s.replicas > 0 ==> cfg.replicas == s.replicas)
      && (s.provider != Unset ==> cfg.provider == s.provider)
      && (s.logLevel != "" ==> cfg.logLevel == s.logLevel)
      && cfg.dashboard == s.dashboard
  }

  /** Whatever the user has not set is filled in. */
  predicate FillsIn(provided: ProviderConfig, cfg: Config, defaults: Config) {
    if !provided.Decoded? then cfg == defaults
    else
      var s := provided.spec;
      && (s.replicas <= 0 ==> cfg.replicas == defaults.replicas)
      && (s.provider == Unset ==> cfg.provider == defaults.provider)
      && (s.logLevel == "" ==> cfg.logLevel == defaults.logLevel)
  }

  /** What a reconciliation runs with, field by field. */
  function Merged(provided: ProviderConfig): (r: Result<Config, SettingsError>)
    ensures r.Failure? <==>
            provided.Decoded? &&
            provided.spec.logLevel !in {"", "Debug", "Info", "Warn", "Error", "Fatal", "Panic"}
    ensures r.Success? ==>
              && TakesOver(provided, r.value)
              && FillsIn(provided, r.value, Config(2, KubernetesIngress, "Info", false))
    ensures r.Success? ==> r.value.replicas >= 1 && r.value.logLevel in VALID_LOG_LEVELS && r.value.provider != Unset
  {
    if LevelRejected(provided) then
      Failure(InvalidLogLevel(provided.spec.logLevel))
    else if !provided.Decoded? then
      Success(DEFAULT_CONFIG)
    else
      var s := provided.spec;
      Success(Config(
                if s.replicas > 0 then s.replicas else 2,
                if s.provider == Unset then KubernetesIngress else s.provider,
                if s.logLevel == "" then "Info" else s.logLevel,
                s.dashboard))
  }

  /** The merge as the actuator performs it: start from the defaults and overwrite what is set. */
  method Merge(provided: ProviderConfig) returns (r: Result<Config, SettingsError>)
    ensures r == Merged(provided)
    ensures r.Success? ==>
              && TakesOver(provided, r.value)
              && FillsIn(provided, r.value, Config(2, KubernetesIngress, "Info", false))
    ensures r.Failure? ==> provided.Decoded? && r.error == InvalidLogLevel(provided.spec.logLevel)
  {
    var cfg := DEFAULT_CONFIG;
    if provided.Decoded? {
      var s := provided.spec;
      if s.replicas > 0 {
        cfg := cfg.(replicas := s.replicas);
      }
      if s.provider != Unset {
        cfg := cfg.(provider := s.provider);
      }
      if s.logLevel != "" {
        if s.logLevel !in VALID_LOG_LEVELS {
          return Failure(InvalidLogLevel(s.logLevel));
        }
        cfg := cfg.(logLevel := s.logLevel);
      }
      cfg := cfg.(dashboard := s.dashboard);
    }
    return Success(cfg);
  }

  /** The configuration that sets every field to what it is. */
  function Explicit(cfg: Config): ProviderConfig {
    Decoded(TraefikSpec(cfg.replicas, cfg.provider, cfg.logLevel, cfg.dashboard))
  }

  /** A configuration that cannot be decoded counts as none, and merging a merged configuration changes nothing. */
  lemma MergingSettles(provided: ProviderConfig)
    ensures Merged(Undecodable) == Merged(Absent)
    ensures Merged(provided).Success? ==> Merged(Explicit(Merged(provided).value)) == Merged(provided)
  {
    if Merged(provided).Success? {
      var cfg := Merged(provided).value;
      assert Merged(Explicit(cfg)).Success? && TakesOver(Explicit(cfg), Merged(Explicit(cfg)).value);
    }
  }

  /** Class name and controller determine each other, so a controller never changes under a given name. */
  lemma ClassNameDeterminesController(a: Config, b: Config)
    ensures a.IngressClassName() == b.IngressClassName() <==> a.Controller() == b.Controller()
  {
    assert |"nginx"| != |"traefik"|;
    assert |"k8s.io/ingress-nginx"| != |"traefik.io/ingress-controller"|;
  }
}
