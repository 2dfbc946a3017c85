/** What `init` reads and decides: the default host, the app's secrets stored for
    it, the client configuration built from them, and which path ends the call. */
module Startup {
  import opened TwitterTypes

  /** The app key the secrets are stored under, and the keys of its five secrets. */
  const AppKey := "dotTwitterApp"
  const DebugKey := "twitter4jDebug"
  const ConsumerKeyKey := "twitter4jConsumerKey"
  const ConsumerSecretKey := "twitter4jConsumerSecret"
  const AccessTokenKey := "twitter4jAccessToken"
  const TokenSecretKey := "twitter4jTokenSecret"

  datatype Host = Host(hostname: string)

  /** One stored secret, read as a boolean or a string; None where that read
      throws or yields null. */
  datatype Secret = Secret(asBoolean: Option<bool>, asString: Option<string>)

  type AppSecrets = map<string, Secret>

  /** The client configuration; a None credential is Java's null. */
  datatype Config = Config(
    debug: bool,
    consumerKey: Option<string>,
    consumerSecret: Option<string>,
    accessToken: Option<string>,
    tokenSecret: Option<string>)

  /** The upstream client handle, built from a configuration. */
  datatype Client = Client(config: Config)

  /** `Try.of(() -> secrets.get(key).getBoolean()).getOrElse(default)`. */
  function BooleanOr(secrets: AppSecrets, key: string, default: bool): bool {
    if key in secrets && secrets[key].asBoolean.Some? then secrets[key].asBoolean.value else default
  }

  /** `Try.of(() -> secrets.get(key).getString()).getOrNull()`. */
  function StringOrNull(secrets: AppSecrets, key: string): Option<string> {
    if key in secrets then secrets[key].asString else None
  }

  /** The client configuration built from the secrets. Each of the five fields
      is read on its own: a missing or unreadable secret gives that field its
      default (debug off, a null credential) while the others are still read. */
  function ConfigOf(secrets: AppSecrets): (config: Config)
    ensures (DebugKey !in secrets || secrets[DebugKey].asBoolean.None?) ==> !config.debug
    ensures DebugKey in secrets && secrets[DebugKey].asBoolean.Some? ==> config.debug == secrets[DebugKey].asBoolean.value
    ensures ConsumerKeyKey !in secrets ==> config.consumerKey == None
    ensures ConsumerKeyKey in secrets ==> config.consumerKey == secrets[ConsumerKeyKey].asString
    ensures ConsumerSecretKey !in secrets ==> config.consumerSecret == None
    ensures ConsumerSecretKey in secrets ==> config.consumerSecret == secrets[ConsumerSecretKey].asString
    ensures AccessTokenKey !in secrets ==> config.accessToken == None
    ensures AccessTokenKey in secrets ==> config.accessToken == secrets[AccessTokenKey].asString
    ensures TokenSecretKey !in secrets ==> config.tokenSecret == None
    ensures TokenSecretKey in secrets ==> config.tokenSecret == secrets[TokenSecretKey].asString
  {
    Config(
      BooleanOr(secrets, DebugKey, false),
      StringOrNull(secrets, ConsumerKeyKey),
      StringOrNull(secrets, ConsumerSecretKey),
      StringOrNull(secrets, AccessTokenKey),
      StringOrNull(secrets, TokenSecretKey))
  }

  /** The configuration reads the five named secrets and nothing else. */
  lemma ConfigReadsOnlyItsKeys(a: AppSecrets, b: AppSecrets)
    requires forall k :: k in {DebugKey, ConsumerKeyKey, ConsumerSecretKey, AccessTokenKey, TokenSecretKey} ==>
      (k in a <==> k in b) && (k in a ==> a[k] == b[k])
    ensures ConfigOf(a) == ConfigOf(b)
  {
  }

  /** Which path ends a call of `init`. */
  datatype InitPath = NoDefaultHost | NoSecrets | ClientFailed | Started

  /** The path `init` takes: `defaultHost` is None when the host lookup throws,
      `secretsOf` is the secrets store (None when it has nothing or throws), and
      `builds` says whether the client factory succeeds on a configuration. */
  function PathOf(defaultHost: Option<Host>, secretsOf: (string, Host) -> Option<AppSecrets>, builds: Config -> bool): (path: InitPath)
    ensures path == NoDefaultHost <==> defaultHost.None?
    ensures path == NoSecrets <==> defaultHost.Some? && secretsOf(AppKey, defaultHost.value).None?
  {
    match defaultHost
    case None => NoDefaultHost
    case Some(host) =>
      match secretsOf(AppKey, host)
      case None => NoSecrets
      case Some(secrets) => if builds(ConfigOf(secrets)) then Started else ClientFailed
  }

  /** `init` completes exactly when the host is found, the secrets are present
      and the client is built from their configuration. */
  lemma StartsExactlyWhenAllSucceed(defaultHost: Option<Host>, secretsOf: (string, Host) -> Option<AppSecrets>, builds: Config -> bool)
    ensures PathOf(defaultHost, secretsOf, builds) == Started <==>
      defaultHost.Some? && secretsOf(AppKey, defaultHost.value).Some?
      && builds(ConfigOf(secretsOf(AppKey, defaultHost.value).value))
  {
  }

  /** The secrets are released exactly on the paths that obtained them. */
  predicate ReleasesSecrets(path: InitPath) {
    path == ClientFailed || path == Started
  }

  lemma ReleasesExactlyWhenObtained(defaultHost: Option<Host>, secretsOf: (string, Host) -> Option<AppSecrets>, builds: Config -> bool)
    ensures ReleasesSecrets(PathOf(defaultHost, secretsOf, builds)) <==>
      defaultHost.Some? && secretsOf(AppKey, defaultHost.value).Some?
  {
  }
}
