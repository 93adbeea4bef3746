/**
 * TravelPlannerApp/src/config/env.ts: the three environment configurations
 * and `getEnvVars`, which picks one from the Expo release channel. The
 * channel (read from the app manifest in the source) is a parameter here;
 * `None` stands for `undefined`.
 */
module Env {
  import opened Wrappers
  import opened Text

  datatype Environment = Development | Staging | Production

  datatype Config = Config(
    apiUrl: string,
    environment: Environment,
    googleMapsApiKey: Option<string>,
    weatherApiKey: Option<string>,
    sentryDsn: Option<string>)

  const DevelopmentConfig := Config("http://localhost:3000/api", Development, Some(""), Some(""), None)
  const StagingConfig := Config("https://staging-api.example.com/api", Staging, Some(""), Some(""), None)
  const ProductionConfig := Config("https://api.example.com/api", Production, Some(""), Some(""), Some(""))

  /** `ENV[e]`: the configuration whose `environment` field names `e`. */
  function ConfigFor(e: Environment): (c: Config)
    ensures c.environment == e
  {
    match e
    case Development => DevelopmentConfig
    case Staging => StagingConfig
    case Production => ProductionConfig
  }

  /** `getEnvVars`: undefined channel, then "prod" anywhere, then "staging" anywhere, else development. */
  function GetEnvVars(releaseChannel: Option<string>): (c: Config)
    ensures releaseChannel.None? ==> c == DevelopmentConfig
    ensures releaseChannel.Some? && (exists i :: OccursAt(releaseChannel.value, "prod", i))
      ==> c == ProductionConfig
    ensures releaseChannel.Some? && (forall i :: !OccursAt(releaseChannel.value, "prod", i))
      && (exists i :: OccursAt(releaseChannel.value, "staging", i))
      ==> c == StagingConfig
    ensures releaseChannel.Some? && (forall i :: !OccursAt(releaseChannel.value, "prod", i))
      && (forall i :: !OccursAt(releaseChannel.value, "staging", i))
      ==> c == DevelopmentConfig
  {
    match releaseChannel
    case None => ConfigFor(Development)
    case Some(channel) =>
      if IndexOf(channel, "prod") != -1 then ConfigFor(Production)
      else if IndexOf(channel, "staging") != -1 then ConfigFor(Staging)
      else ConfigFor(Development)
  }

  /** A channel naming both words, such as "prod-staging", selects production: "prod" is tested first. */
  lemma ProductionBeatsStaging(channel: string, i: int, j: int)
    requires OccursAt(channel, "prod", i)
    requires OccursAt(channel, "staging", j)
    ensures GetEnvVars(Some(channel)).environment == Production
  {
  }

  /** Only a defined channel containing "staging" and not "prod" selects staging. */
  lemma StagingOnlyWithoutProd(channel: Option<string>)
    ensures GetEnvVars(channel).environment == Staging <==>
      && channel.Some?
      && (forall i :: !OccursAt(channel.value, "prod", i))
      && (exists j :: OccursAt(channel.value, "staging", j))
  {
  }
}
