# Apigee discovery agent: configuration, grant types, validator-registration job

A Dafny model of three small pieces of the Apigee discovery agent:

- **Gateway configuration** (`Config`, config.dfy). Every setting lives in a
  property registry under a path such as `apigee.url`. `ParseConfig` builds an
  `ApigeeConfig` from the registry. It copies every setting as it is, except
  the base URL and the data URL: each of those loses one trailing `/`.
  `ValidateCfg` checks six required settings in a fixed order: URL, API
  version, data URL, username, password, developer ID. It returns the first
  one that is empty, or success. The defaults that `AddProperties` registers
  are constants, and `DefaultProperties` is the registry holding them.
- **Definitions** (`Definitions`, definitions.dfy). `GrantType` is the OAuth
  grant type and `String` gives its name: `"password"` (section 4.3.2 of
  RFC 6749) or `"refresh_token"` (section 6 of RFC 6749). `ApiDocData` is an
  API document, a record held by reference. `SetPortalTitle` changes its
  portal title in place.
- **Validator-registration job** (`RegisterValidatorJob`,
  register_validator_job.dfy). The job holds two injected things: the
  "proxies first run done" predicate (`FirstRunDone`, a boolean the proxy job
  sets) and the registration callback (`Callback`, which counts its calls).
  `Ready` is the predicate's current value, `Status` never reports an error,
  and `Execute` calls the callback once and never fails. The scheduler that
  admits jobs is not part of this model. Its one assumption, "the caller runs
  the job only when `Ready` holds", is stated as `AdmitIfReady` and as the
  trace function `AdmittedRuns`. The lemmas about them show that nothing is
  registered while the gate stays closed.

Modelling choices:

- The registry is a `map` from path to a string or a duration.
- A lookup of a missing path, or of a value of the other kind, gives the Go
  zero value: `""` or `0`. This is an assumption about the registry library,
  whose code is not part of this model.
- A `time.Duration` is an `int` counting nanoseconds.
- The `Auth` and `Intervals` pointers are `Option`s, since either may be nil.
- `ValidateCfg` reads `Auth` only after the first three checks pass. So its
  precondition `CanValidate` asks only this: if URL, API version and data URL
  are all set, `auth` is not nil. `ParseConfig` always establishes it.

## Model

| member | source | states |
|---|---|---|
| `Config.ApigeeConfig.ValidateCfg` | client/pkg/config/config.go:92-118 | Succeeds iff all six required settings are non-empty. On failure, the reported setting is empty and every setting checked before it is set. Requires only that `auth` is non-nil whenever the first three checks pass. |
| `Config.FirstEmptyIsReported` | client/pkg/config/config.go:93-115 | The first empty setting, in the order URL, API version, data URL, username, password, developer ID, is exactly the error returned. |
| `Config.LaterSettingsIrrelevant` | client/pkg/config/config.go:93-115 | Two configurations that agree on the settings up to the failing one fail with the same error, whatever the later settings hold. |
| `Config.UncheckedSettingsIgnored` | client/pkg/config/config.go:92-117 | Changing organization, filter or intervals never changes the validation result. |
| `Config.ParsedConfigValid` | client/pkg/config/config.go:68-117 | A parsed configuration validates iff URL, API version, data URL, username, password and developer ID are all non-empty. |
| `Config.Message` | client/pkg/config/config.go:94-114 | Every validation message starts with `invalid APIGEE configuration: ` and goes on with a non-empty description of the missing setting. |
| `Config.ApigeeConfig.GetAuth` | client/pkg/config/config.go:121-123 | Returns the stored auth record; the configuration is a value and stays unchanged. |
| `Config.ApigeeConfig.GetIntervals` | client/pkg/config/config.go:126-128 | Returns the stored intervals record; the configuration is a value and stays unchanged. |
| `Config.MessageInjective` | client/pkg/config/config.go:94-114 | The six error messages are pairwise distinct. |
| `Config.TrimSuffix` | client/pkg/config/config.go:72 | If `s` ends in the suffix, the result followed by the suffix is `s`; otherwise the result is `s`. |
| `Config.TrimSlashAtMostOne` | client/pkg/config/config.go:72-74 | Trimming `/` gives back `s`, or `s` minus one final `/`; the length drops by at most one. |
| `Config.TrimSlashOfSlashed` | client/pkg/config/config.go:72-74 | `x + "/"` trims to `x`. |
| `Config.TrimSlashNoSlash` | client/pkg/config/config.go:72-74 | A value that does not end in `/` is unchanged. |
| `Config.TrimSlashOnlyOnce` | client/pkg/config/config.go:72-74 | `x + "//"` trims to `x + "/"`: only one slash goes, so the trim is not idempotent. |
| `Config.ParseConfig` | client/pkg/config/config.go:68-89 | The result always has non-nil auth and intervals, and so meets the precondition of `ValidateCfg`. |
| `Config.ParseConfigCopies` | client/pkg/config/config.go:71-87 | Organization, API version, filter, developer ID, username, password and the five intervals are the values stored under their paths. |
| `Config.ParseConfigTrimsURLs` | client/pkg/config/config.go:72-74 | Each URL equals its stored value, or its stored value minus one trailing `/`. It is the latter exactly when the stored value ends in `/`. |
| `Config.ParseConfigRoundTrip` | client/pkg/config/config.go:68-89 | A configuration with non-nil pointers and no trailing `/` on its URLs parses back to itself from the registry holding its settings. |
| `Config.ParsedAccessors` | client/pkg/config/config.go:121-128 | `GetAuth` and `GetIntervals` of a parsed configuration return the auth and intervals records built from the registry. |
| `Config.DefaultsParse` | client/pkg/config/config.go:51-65 | The default URLs have no trailing `/`. The defaults parse to URL `https://api.enterprise.apigee.com`, data URL `https://apigee.com/dapi/api`, API version `v1`, and intervals proxy 30 s, spec 30 min, product 5 min, portal 1 min, API 30 s. |
| `Config.DefaultsFailOnUsername` | client/pkg/config/config.go:51-65 | A configuration parsed from the defaults alone fails validation with the username error. |
| `Definitions.GrantType.String` | discovery/pkg/apigee/definitions.go:9-18 | Defined only for 0 and 1. The result is `"password"` iff the value is `Password`, and `"refresh_token"` iff it is `Refresh`. |
| `Definitions.GrantTypeStringInjective` | discovery/pkg/apigee/definitions.go:11-18 | `Password` and `Refresh` are 0 and 1, and `String` gives them distinct names. |
| `Definitions.ApiDocData.constructor` | discovery/pkg/apigee/definitions.go:79-95 | The new document holds exactly the given field values. |
| `Definitions.ApiDocData.SetPortalTitle` | discovery/pkg/apigee/definitions.go:97-99 | Afterwards the portal title is the given one and every other field is as before. |
| `Definitions.SetPortalTitleTwice` | discovery/pkg/apigee/definitions.go:97-99 | Setting `t1` and then `t2` leaves the document as setting `t2` alone would. |
| `Definitions.PortalTitleLastWriteWins` | discovery/pkg/apigee/definitions.go:97-99 | On record values, the second title wins, and setting the same title twice is idempotent. |
| `RegisterValidatorJob.RegisterAPIValidatorJob.constructor` | discovery/pkg/apigee/registervalidatorjob.go:13-19 | Stores exactly the given predicate and callback; both fields are immutable afterwards. |
| `RegisterValidatorJob.RegisterAPIValidatorJob.Ready` | discovery/pkg/apigee/registervalidatorjob.go:21-23 | Returns exactly the predicate's current value. |
| `RegisterValidatorJob.RegisterAPIValidatorJob.Status` | discovery/pkg/apigee/registervalidatorjob.go:25-27 | Always reports no error. |
| `RegisterValidatorJob.RegisterAPIValidatorJob.Execute` | discovery/pkg/apigee/registervalidatorjob.go:29-32 | Never fails. Calls the callback exactly once and leaves the predicate as it was. |
| `RegisterValidatorJob.Callback.Invoke` | discovery/pkg/apigee/registervalidatorjob.go:10 | One call of the injected callback adds one to its call count. |
| `RegisterValidatorJob.AdmitIfReady` | discovery/pkg/apigee/registervalidatorjob.go:21-32 | A ready-only caller runs the job iff the predicate holds. The call count grows by one then, and is unchanged otherwise. |
| `RegisterValidatorJob.AdmittedRuns` | discovery/pkg/apigee/registervalidatorjob.go:21-31 | A ready-only caller never makes more registrations than it takes admission decisions. |
| `RegisterValidatorJob.AdmittedRunsCountsOpenGates` | discovery/pkg/apigee/registervalidatorjob.go:21-31 | The registrations made equal the number of decisions taken while the predicate held. |
| `RegisterValidatorJob.NoRegistrationWhileClosed` | discovery/pkg/apigee/registervalidatorjob.go:21-31 | While the predicate stays false, the registration count stays 0. |
| `RegisterValidatorJob.NoRegistrationBeforeFirstOpen` | discovery/pkg/apigee/registervalidatorjob.go:21-31 | Every decision before the predicate first holds registers nothing. |
| `RegisterValidatorJob.RunAdmissions` | discovery/pkg/apigee/registervalidatorjob.go:21-32 | Driving the job through a run of predicate values adds exactly `AdmittedRuns` of that run to the call count. Afterwards the predicate holds the run's last value, or its old value after an empty run. |
| `RegisterValidatorJob.GatedClient` | discovery/pkg/apigee/registervalidatorjob.go:13-32 | A freshly wired job whose predicate never holds ends with zero registrations. |

## Left out

- `AddProperties` as a call into the agent SDK's property registry, which is not part of this model. Only its paths and default values are kept, as constants and as `DefaultProperties`.
- The lookup functions `StringPropertyValue` and `DurationPropertyValue` belong to that same library. They are modelled as map lookups that give the Go zero value when the path is missing.
- The embedded `corecfg.IConfigValidator` and `jobs.Job`. The agent SDK scheduler that admits ready jobs on their intervals is not part of this model. Its only assumption kept here is that the caller checks `Ready` first.
- JSON decoding of `AuthResponse`, `portalResponse`, `portalsResponse`, `portalData` and `apiDocDataResponse`. Field mapping by struct tags is done by `encoding/json`, which is not part of this model. Only the `apiDocData` record is modelled, as far as `SetPortalTitle` needs.
- A nil `*ApigeeConfig` receiver. Configurations are values; only the nil-ness of the `Auth` and `Intervals` pointers is modelled.
- The other nil panics. Dafny references are never null, so the model has none of these cases: `SetPortalTitle` on a nil `*apiDocData` (definitions.go:97-98); a nil `proxiesReady` or `registerValidator` func, which `newRegisterAPIValidatorJob` accepts (registervalidatorjob.go:13-19) and `Ready` or `Execute` then calls (registervalidatorjob.go:22, 30); and a nil `*registerAPIValidatorJob` receiver.
- How often the callback runs overall. `Execute` calls it on every run (registervalidatorjob.go:29-32). Whether it runs only once is up to the scheduler, which is not modelled.
- Aliasing of the records `GetAuth` and `GetIntervals` point to. They are returned as values, so a caller writing through the returned pointer is not modelled.
- `time.Duration` overflow. Durations are unbounded integers; every default fits easily in 64 bits.
- Concurrency. Each of these operations is a single synchronous step.
