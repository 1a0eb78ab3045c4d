/**
 * The gateway configuration of the Apigee discovery agent: the property
 * paths and their defaults, the parse step that turns property values into
 * an ApigeeConfig, and the validator that checks the required settings in a
 * fixed order.
 */
module Config {
  import opened Wrappers

  /** A `time.Duration`: a whole number of nanoseconds. */
  type Duration = int

  const Nanosecond: Duration := 1
  const Second: Duration := 1_000_000_000 * Nanosecond
  const Minute: Duration := 60 * Second

  // Property paths under which the agent registers its settings.
  const PathURL := "apigee.url"
  const PathDataURL := "apigee.dataURL"
  const PathAPIVersion := "apigee.apiVersion"
  const PathOrganization := "apigee.organization"
  const PathAuthUsername := "apigee.auth.username"
  const PathAuthPassword := "apigee.auth.password"
  const PathSpecInterval := "apigee.interval.spec"
  const PathProxyInterval := "apigee.interval.proxy"
  const PathProductInterval := "apigee.interval.product"
  const PathPortalInterval := "apigee.interval.portal"
  const PathAPIInterval := "apigee.interval.api"
  const PathFilter := "apigee.filter"
  const PathDeveloper := "apigee.developerID"

  // Default values registered for those paths.
  const DefaultOrganization := ""
  const DefaultURL := "https://api.enterprise.apigee.com"
  const DefaultAPIVersion := "v1"
  const DefaultDataURL := "https://apigee.com/dapi/api"
  const DefaultUsername := ""
  const DefaultPassword := ""
  const DefaultSpecInterval: Duration := 30 * Minute
  const DefaultProxyInterval: Duration := 30 * Second
  const DefaultProductInterval: Duration := 5 * Minute
  const DefaultPortalInterval: Duration := 1 * Minute
  const DefaultAPIInterval: Duration := 30 * Second
  const DefaultFilter := ""
  const DefaultDeveloperID := ""

  /** A value held by the property registry: a string or a duration. */
  datatype PropValue = Str(s: string) | Dur(d: Duration)

  /** The property registry: the value currently held under each path. */
  type Properties = map<string, PropValue>

  /** The string held under `path`; the zero value "" when there is none. */
  function StringValue(props: Properties, path: string): string {
    if path in props && props[path].Str? then props[path].s else ""
  }

  /** The duration held under `path`; the zero value 0 when there is none. */
  function DurationValue(props: Properties, path: string): Duration {
    if path in props && props[path].Dur? then props[path].d else 0
  }

  /** The registry as it stands once every default has been registered. */
  function DefaultProperties(): Properties {
    map[
      PathOrganization := Str(DefaultOrganization),
      PathURL := Str(DefaultURL),
      PathAPIVersion := Str(DefaultAPIVersion),
      PathDataURL := Str(DefaultDataURL),
      PathAuthUsername := Str(DefaultUsername),
      PathAuthPassword := Str(DefaultPassword),
      PathSpecInterval := Dur(DefaultSpecInterval),
      PathProxyInterval := Dur(DefaultProxyInterval),
      PathProductInterval := Dur(DefaultProductInterval),
      PathPortalInterval := Dur(DefaultPortalInterval),
      PathAPIInterval := Dur(DefaultAPIInterval),
      PathFilter := Str(DefaultFilter),
      PathDeveloper := Str(DefaultDeveloperID)
    ]
  }

  predicate HasSuffix(s: string, suffix: string) {
    |suffix| <= |s| && s[|s| - |suffix|..] == suffix
  }

  /** `s` without `suffix` when it ends in it, `s` itself otherwise. */
  function TrimSuffix(s: string, suffix: string): (r: string)
    ensures HasSuffix(s, suffix) ==> r + suffix == s
    ensures !HasSuffix(s, suffix) ==> r == s
  {
    if HasSuffix(s, suffix) then s[..|s| - |suffix|] else s
  }

  datatype AuthConfig = AuthConfig(username: string, password: string)

  datatype ApigeeIntervals = ApigeeIntervals(
    proxy: Duration,
    spec: Duration,
    product: Duration,
    portal: Duration,
    api: Duration)

  /** The reasons the validator rejects a configuration, one per required setting. */
  datatype ConfigError =
    | UrlMissing
    | ApiVersionMissing
    | DataUrlMissing
    | UsernameMissing
    | PasswordMissing
    | DeveloperIdMissing

  /** The prefix every validation message starts with. */
  const MessagePrefix := "invalid APIGEE configuration: "

  /** What follows the prefix in the message for `e`: the setting that is missing. */
  function Detail(e: ConfigError): (r: string)
    ensures |r| > 0
  {
    match e
    case UrlMissing => "url is not configured"
    case ApiVersionMissing => "api version is not configured"
    case DataUrlMissing => "data url is not configured"
    case UsernameMissing => "username is not configured"
    case PasswordMissing => "password is not configured"
    case DeveloperIdMissing => "developer ID must be configured"
  }

  /**
   * The text of the error the validator returns for `e`: the common prefix
   * followed by a non-empty description of the missing setting.
   */
  function Message(e: ConfigError): (r: string)
    ensures |r| > |MessagePrefix| && r[..|MessagePrefix|] == MessagePrefix
  {
    MessagePrefix + Detail(e)
  }

  /** The position at which the validator checks the setting behind `e`. */
  function Rank(e: ConfigError): nat {
    match e
    case UrlMissing => 0
    case ApiVersionMissing => 1
    case DataUrlMissing => 2
    case UsernameMissing => 3
    case PasswordMissing => 4
    case DeveloperIdMissing => 5
  }

  /**
   * The gateway configuration. `auth` and `intervals` are pointers in the
   * agent and may be nil, hence the Option.
   */
  datatype ApigeeConfig = ApigeeConfig(
    organization: string,
    url: string,
    dataURL: string,
    apiVersion: string,
    auth: Option<AuthConfig>,
    intervals: Option<ApigeeIntervals>,
    filter: string,
    developerID: string)
  {
    /** Whether the required setting that `e` reports on is present (non-empty). */
    predicate IsSet(e: ConfigError) {
      match e
      case UrlMissing => url != ""
      case ApiVersionMissing => apiVersion != ""
      case DataUrlMissing => dataURL != ""
      case UsernameMissing => auth.Some? && auth.value.username != ""
      case PasswordMissing => auth.Some? && auth.value.password != ""
      case DeveloperIdMissing => developerID != ""
    }

    /**
     * What the validator needs of its receiver: it reads `auth` only once
     * the first three settings have passed, so `auth` must then be non-nil.
     */
    predicate CanValidate() {
      url != "" && apiVersion != "" && dataURL != "" ==> auth.Some?
    }

    /**
     * Checks the required settings in order and reports the first one that
     * is empty; succeeds exactly when all six are present.
     */
    function ValidateCfg(): (r: Outcome<ConfigError>)
      requires CanValidate()
      ensures r.Pass? <==> forall e: ConfigError :: IsSet(e)
      ensures r.Fail? ==> !IsSet(r.error)
      ensures r.Fail? ==> forall e: ConfigError :: Rank(e) < Rank(r.error) ==> IsSet(e)
    {
      if url == "" then
        assert !IsSet(UrlMissing); Fail(UrlMissing)
      else if apiVersion == "" then
        assert !IsSet(ApiVersionMissing); Fail(ApiVersionMissing)
      else if dataURL == "" then
        assert !IsSet(DataUrlMissing); Fail(DataUrlMissing)
      else if auth.value.username == "" then
        assert !IsSet(UsernameMissing); Fail(UsernameMissing)
      else if auth.value.password == "" then
        assert !IsSet(PasswordMissing); Fail(PasswordMissing)
      else if developerID == "" then
        assert !IsSet(DeveloperIdMissing); Fail(DeveloperIdMissing)
      else
        assert forall e: ConfigError :: IsSet(e) by {
          forall e: ConfigError ensures IsSet(e) {
            if e.UsernameMissing? || e.PasswordMissing? {
              assert auth.Some?;
            }
          }
        }
        Pass
    }

    /** The stored auth record; reading it leaves the configuration as it is. */
    function GetAuth(): (r: Option<AuthConfig>)
      ensures r == auth
    {
      auth
    }

    /** The stored intervals record; reading it leaves the configuration as it is. */
    function GetIntervals(): (r: Option<ApigeeIntervals>)
      ensures r == intervals
    {
      intervals
    }
  }

  /**
   * Builds the configuration from the registry: every setting is copied as
   * it is, except the two base URLs, which lose one trailing "/".
   */
  function ParseConfig(props: Properties): (r: ApigeeConfig)
    ensures r.auth.Some? && r.intervals.Some?
    ensures r.CanValidate()
  {
    ApigeeConfig(
      organization := StringValue(props, PathOrganization),
      url := TrimSuffix(StringValue(props, PathURL), "/"),
      apiVersion := StringValue(props, PathAPIVersion),
      dataURL := TrimSuffix(StringValue(props, PathDataURL), "/"),
      filter := StringValue(props, PathFilter),
      developerID := StringValue(props, PathDeveloper),
      intervals := Some(ApigeeIntervals(
        proxy := DurationValue(props, PathProxyInterval),
        spec := DurationValue(props, PathSpecInterval),
        product := DurationValue(props, PathProductInterval),
        portal := DurationValue(props, PathPortalInterval),
        api := DurationValue(props, PathAPIInterval))),
      auth := Some(AuthConfig(
        username := StringValue(props, PathAuthUsername),
        password := StringValue(props, PathAuthPassword))))
  }

  /**
   * The registry that holds exactly the settings of `c`; the reference
   * against which ParseConfig is checked by a round trip.
   */
  function PropertiesOf(c: ApigeeConfig): (props: Properties)
    requires c.auth.Some? && c.intervals.Some?
  {
    map[
      PathOrganization := Str(c.organization),
      PathURL := Str(c.url),
      PathAPIVersion := Str(c.apiVersion),
      PathDataURL := Str(c.dataURL),
      PathAuthUsername := Str(c.auth.value.username),
      PathAuthPassword := Str(c.auth.value.password),
      PathSpecInterval := Dur(c.intervals.value.spec),
      PathProxyInterval := Dur(c.intervals.value.proxy),
      PathProductInterval := Dur(c.intervals.value.product),
      PathPortalInterval := Dur(c.intervals.value.portal),
      PathAPIInterval := Dur(c.intervals.value.api),
      PathFilter := Str(c.filter),
      PathDeveloper := Str(c.developerID)
    ]
  }

  // ---------------------------------------------------------------------
  // Trailing-slash normalisation

  /** Trimming a "/" removes at most one character, and only a final "/". */
  lemma TrimSlashAtMostOne(s: string)
    ensures TrimSuffix(s, "/") == s || TrimSuffix(s, "/") + "/" == s
    ensures |s| - 1 <= |TrimSuffix(s, "/")| <= |s|
  {
  }

  /** A value ending in "/" loses exactly that "/": "x/" becomes "x". */
  lemma TrimSlashOfSlashed(x: string)
    ensures TrimSuffix(x + "/", "/") == x
  {
  }

  /** A value that does not end in "/" is left alone. */
  lemma TrimSlashNoSlash(s: string)
    requires |s| == 0 || s[|s| - 1] != '/'
    ensures TrimSuffix(s, "/") == s
  {
  }

  /** Only one "/" goes: "x//" becomes "x/", so the trim is not idempotent. */
  lemma TrimSlashOnlyOnce(x: string)
    ensures TrimSuffix(x + "//", "/") == x + "/"
    ensures TrimSuffix(TrimSuffix(x + "//", "/"), "/") == x
  {
  }

  // ---------------------------------------------------------------------
  // ParseConfig

  /** Every setting other than the two URLs is copied unchanged from its path. */
  lemma ParseConfigCopies(props: Properties)
    ensures ParseConfig(props).organization == StringValue(props, PathOrganization)
    ensures ParseConfig(props).apiVersion == StringValue(props, PathAPIVersion)
    ensures ParseConfig(props).filter == StringValue(props, PathFilter)
    ensures ParseConfig(props).developerID == StringValue(props, PathDeveloper)
    ensures ParseConfig(props).auth
      == Some(AuthConfig(StringValue(props, PathAuthUsername), StringValue(props, PathAuthPassword)))
    ensures ParseConfig(props).intervals
      == Some(ApigeeIntervals(
           DurationValue(props, PathProxyInterval),
           DurationValue(props, PathSpecInterval),
           DurationValue(props, PathProductInterval),
           DurationValue(props, PathPortalInterval),
           DurationValue(props, PathAPIInterval)))
  {
  }

  /** The two URLs lose at most one trailing "/" and nothing else. */
  lemma ParseConfigTrimsURLs(props: Properties)
    ensures var raw := StringValue(props, PathURL);
      ParseConfig(props).url == raw || ParseConfig(props).url + "/" == raw
    ensures var raw := StringValue(props, PathDataURL);
      ParseConfig(props).dataURL == raw || ParseConfig(props).dataURL + "/" == raw
    ensures HasSuffix(StringValue(props, PathURL), "/")
      ==> ParseConfig(props).url + "/" == StringValue(props, PathURL)
    ensures HasSuffix(StringValue(props, PathDataURL), "/")
      ==> ParseConfig(props).dataURL + "/" == StringValue(props, PathDataURL)
  {
  }

  /**
   * Round trip: a configuration whose URLs do not end in "/" and whose
   * pointers are set is read back exactly from the registry holding its
   * settings.
   */
  lemma ParseConfigRoundTrip(c: ApigeeConfig)
    requires c.auth.Some? && c.intervals.Some?
    requires !HasSuffix(c.url, "/") && !HasSuffix(c.dataURL, "/")
    ensures ParseConfig(PropertiesOf(c)) == c
  {
  }

  /** GetAuth and GetIntervals hand back the records ParseConfig built. */
  lemma ParsedAccessors(props: Properties)
    ensures ParseConfig(props).GetAuth()
      == Some(AuthConfig(StringValue(props, PathAuthUsername), StringValue(props, PathAuthPassword)))
    ensures ParseConfig(props).GetIntervals()
      == Some(ApigeeIntervals(
           DurationValue(props, PathProxyInterval),
           DurationValue(props, PathSpecInterval),
           DurationValue(props, PathProductInterval),
           DurationValue(props, PathPortalInterval),
           DurationValue(props, PathAPIInterval)))
  {
  }

  // ---------------------------------------------------------------------
  // Defaults

  /** The default intervals and URLs, and what the defaults parse to. */
  lemma DefaultsParse()
    ensures !HasSuffix(DefaultURL, "/") && !HasSuffix(DefaultDataURL, "/")
    ensures ParseConfig(DefaultProperties()).url == "https://api.enterprise.apigee.com"
    ensures ParseConfig(DefaultProperties()).dataURL == "https://apigee.com/dapi/api"
    ensures ParseConfig(DefaultProperties()).apiVersion == "v1"
    ensures ParseConfig(DefaultProperties()).intervals == Some(ApigeeIntervals(
      proxy := 30 * 1_000_000_000,
      spec := 30 * 60 * 1_000_000_000,
      product := 5 * 60 * 1_000_000_000,
      portal := 60 * 1_000_000_000,
      api := 30 * 1_000_000_000))
  {
    var p := DefaultProperties();
    assert StringValue(p, PathURL) == DefaultURL;
    assert StringValue(p, PathDataURL) == DefaultDataURL;
    assert StringValue(p, PathAPIVersion) == DefaultAPIVersion;
    assert DurationValue(p, PathProxyInterval) == DefaultProxyInterval;
    assert DurationValue(p, PathSpecInterval) == DefaultSpecInterval;
    assert DurationValue(p, PathProductInterval) == DefaultProductInterval;
    assert DurationValue(p, PathPortalInterval) == DefaultPortalInterval;
    assert DurationValue(p, PathAPIInterval) == DefaultAPIInterval;
  }

  /** With nothing but the defaults the agent refuses to start: no username. */
  lemma DefaultsFailOnUsername()
    ensures ParseConfig(DefaultProperties()).ValidateCfg() == Fail(UsernameMissing)
  {
    var p := DefaultProperties();
    assert StringValue(p, PathURL) == DefaultURL;
    assert StringValue(p, PathDataURL) == DefaultDataURL;
    assert StringValue(p, PathAPIVersion) == DefaultAPIVersion;
    assert StringValue(p, PathAuthUsername) == "";
  }

  // ---------------------------------------------------------------------
  // ValidateCfg

  /** Every error has its own message. */
  lemma MessageInjective(e1: ConfigError, e2: ConfigError)
    ensures Message(e1) == Message(e2) ==> e1 == e2
  {
  }

  /**
   * The reported error is the first empty setting in the order URL, API
   * version, data URL, username, password, developer ID, whatever the later
   * settings hold.
   */
  lemma FirstEmptyIsReported(c: ApigeeConfig, e: ConfigError)
    requires c.CanValidate()
    requires !c.IsSet(e)
    requires forall e': ConfigError :: Rank(e') < Rank(e) ==> c.IsSet(e')
    ensures c.ValidateCfg() == Fail(e)
  {
  }

  /**
   * Two configurations that agree on the settings checked up to and
   * including the failing one fail with the same error.
   */
  lemma LaterSettingsIrrelevant(c: ApigeeConfig, d: ApigeeConfig, e: ConfigError)
    requires c.CanValidate() && d.CanValidate()
    requires c.ValidateCfg() == Fail(e)
    requires forall e': ConfigError :: Rank(e') <= Rank(e) ==> (c.IsSet(e') <==> d.IsSet(e'))
    ensures d.ValidateCfg() == Fail(e)
  {
  }

  /** Organization, filter and intervals are never checked. */
  lemma UncheckedSettingsIgnored(c: ApigeeConfig, organization: string, filter: string,
                                 intervals: Option<ApigeeIntervals>)
    requires c.CanValidate()
    ensures c.(organization := organization, filter := filter, intervals := intervals).ValidateCfg()
      == c.ValidateCfg()
  {
  }

  /** A parsed configuration validates exactly when its six required settings are non-empty. */
  lemma ParsedConfigValid(props: Properties)
    ensures ParseConfig(props).ValidateCfg().Pass? <==>
      ParseConfig(props).url != "" && ParseConfig(props).apiVersion != ""
      && ParseConfig(props).dataURL != "" && StringValue(props, PathAuthUsername) != ""
      && StringValue(props, PathAuthPassword) != "" && ParseConfig(props).developerID != ""
  {
  }
}
