/**
 * The provider and source vocabulary: which provider a source binds to and
 * the per-source configuration that provider's `Get` receives.
 */
module Provider {
  import opened Wrappers

  /** The provider singletons of the library. */
  datatype ProviderKind =
    | CmlArguments
    | EnvironmentVariables
    | JsonConfiguration
    | YamlConfiguration
    | CfEnvironment

  /**
   * The `config` argument of a provider's `Get`: absent, or the source value
   * of one of the source kinds, holding its optional alternate name.
   */
  datatype SourceConfig =
    | NoConfig
    | CmlArgumentsSource(name: Option<string>)
    | EnvironmentVariablesSource
    | JsonConfigurationSource(name: Option<string>)
    | YamlConfigurationSource(name: Option<string>)

  /** A source binds a provider to the configuration it passes along. */
  datatype Source = Source(provider: ProviderKind, config: SourceConfig)

  /**
   * The name a provider's `Get` looks up: the alternate name carried by a
   * source of that provider's own kind when one is set, otherwise the
   * requested name. A source of any other kind is ignored.
   */
  function NameFor(provider: ProviderKind, config: SourceConfig, name: string): (r: string)
    ensures r != name ==> config.CmlArgumentsSource? || config.JsonConfigurationSource? || config.YamlConfigurationSource?
    ensures provider == CmlArguments && config.CmlArgumentsSource? && config.name.Some? ==> r == config.name.value
    ensures provider == JsonConfiguration && config.JsonConfigurationSource? && config.name.Some? ==> r == config.name.value
    ensures provider == YamlConfiguration && config.YamlConfigurationSource? && config.name.Some? ==> r == config.name.value
    ensures (provider == EnvironmentVariables || provider == CfEnvironment || config.NoConfig?) ==> r == name
    ensures (config.CmlArgumentsSource? || config.JsonConfigurationSource? || config.YamlConfigurationSource?) && config.name.None?
            ==> r == name
  {
    match (provider, config)
    case (CmlArguments, CmlArgumentsSource(Some(alternate))) => alternate
    case (JsonConfiguration, JsonConfigurationSource(Some(alternate))) => alternate
    case (YamlConfiguration, YamlConfigurationSource(Some(alternate))) => alternate
    case _ => name
  }

  /** A source meant for one provider never renames a lookup in another. */
  lemma OtherSourceKindIgnored(provider: ProviderKind, config: SourceConfig, name: string)
    requires !(provider == CmlArguments && config.CmlArgumentsSource?)
    requires !(provider == JsonConfiguration && config.JsonConfigurationSource?)
    requires !(provider == YamlConfiguration && config.YamlConfigurationSource?)
    ensures NameFor(provider, config, name) == name
  {
  }
}
