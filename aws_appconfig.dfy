/** The AWS AppConfig configuration source, its exception context and its
    provider. The provider holds the Data snapshot, the OnReload count and
    the last configuration version it decoded; the AppConfig service and
    the JSON parser are parameters of each load. */
module AwsAppConfig {
  import opened Wrappers
  import opened Failures
  import opened Text
  import opened ReloadPolicy
  import opened AwsAppConfigDecoding
  import DictionaryExtensions

  /** TimeSpan.FromSeconds(60), in seconds. */
  const DefaultLoadTimeout: int := 60
  /** TimeSpan.FromDays(7), in seconds. */
  const DefaultReloadPeriod: int := 7 * 24 * 60 * 60
  /** RegionEndpoint.USEast1, by its system name. */
  const USEast1: string := "us-east-1"

  /** The settable properties of AwsAppConfigConfigurationSource as one
      value; a region endpoint is named by its system name. */
  datatype AwsAppConfigSettings = AwsAppConfigSettings(
    applicationName: Option<string>,
    configurationName: Option<string>,
    environmentName: Option<string>,
    clientId: Option<string>,
    optional: bool,
    loadTimeout: int,
    reloadPeriod: int,
    regionEndpoint: Option<string>,
    onLoadException: Option<LoadExceptionCallback>)

  /** A fresh source: names null, not optional, a 60-second load timeout, a
      7-day reload period, no region and no callback. */
  function DefaultSettings(): (s: AwsAppConfigSettings)
    ensures !s.optional && s.loadTimeout == 60 && s.reloadPeriod == 604800
    ensures s.regionEndpoint.None? && s.onLoadException.None?
    ensures s.applicationName.None? && s.configurationName.None? && s.environmentName.None? && s.clientId.None?
  {
    AwsAppConfigSettings(None, None, None, None, false, DefaultLoadTimeout, DefaultReloadPeriod, None, None)
  }

  class AwsAppConfigConfigurationSource {
    var applicationName: Option<string>
    var configurationName: Option<string>
    var environmentName: Option<string>
    var clientId: Option<string>
    var optional: bool
    var loadTimeout: int
    var reloadPeriod: int
    var regionEndpoint: Option<string>
    var onLoadException: Option<LoadExceptionCallback>

    function Settings(): AwsAppConfigSettings
      reads this
    {
      AwsAppConfigSettings(applicationName, configurationName, environmentName, clientId, optional,
                           loadTimeout, reloadPeriod, regionEndpoint, onLoadException)
    }

    constructor ()
      ensures Settings() == DefaultSettings()
    {
      applicationName, configurationName, environmentName, clientId := None, None, None, None;
      optional, loadTimeout, reloadPeriod := false, DefaultLoadTimeout, DefaultReloadPeriod;
      regionEndpoint, onLoadException := None, None;
    }

    /** A configure callback run on this source. */
    method Configure(configure: AwsAppConfigSettings -> AwsAppConfigSettings)
      modifies this
      ensures Settings() == configure(old(Settings()))
    {
      var s := configure(Settings());
      applicationName, configurationName, environmentName, clientId := s.applicationName, s.configurationName, s.environmentName, s.clientId;
      optional, loadTimeout, reloadPeriod := s.optional, s.loadTimeout, s.reloadPeriod;
      regionEndpoint, onLoadException := s.regionEndpoint, s.onLoadException;
    }

    /** IConfigurationSource.Build: a new provider constructed from this source. */
    method Build() returns (r: Result<AwsAppConfigConfigurationProvider, Error>)
      ensures r.Success? <==> applicationName.Some? && configurationName.Some? && environmentName.Some? && clientId.Some?
      ensures r.Failure? ==> r.error == NullReference
      ensures r.Success? ==> fresh(r.value) && r.value.ConfiguredBy(Settings())
      ensures r.Success? ==> r.value.data == map[] && r.value.reloadCount == 0 && r.value.version == InitialVersion
    {
      r := AwsAppConfigConfigurationProvider.New(this);
    }
  }

  /** The context handed to the OnLoadException callback. */
  class AwsAppConfigExceptionContext {
    var provider: AwsAppConfigConfigurationProvider?
    var exception: Option<Error>
    var ignore: bool
    var reload: bool

    constructor ()
      ensures provider == null && exception.None? && !ignore && !reload
    {
      provider, exception, ignore, reload := null, None, false, false;
    }
  }

  /** The GetConfigurationRequest sent to the AppConfig service. */
  datatype GetConfigurationRequest = GetConfigurationRequest(
    application: string,
    clientConfigurationVersion: Option<string>,
    clientId: string,
    configuration: string,
    environment: string)

  /** The AppConfig service as seen by one request: the response, or the
      exception the call raised (including the load timeout). */
  type ConfigurationService = GetConfigurationRequest -> Result<ConfigurationResponse, Error>

  class AwsAppConfigConfigurationProvider {
    const regionEndpoint: string
    const environmentName: string
    const applicationName: string
    const configurationName: string
    const clientId: string
    const optional: bool
    const reloadPeriod: int
    const loadTimeout: int
    const onLoadException: Option<LoadExceptionCallback>

    /** ConfigurationProvider.Data, initially empty. */
    var data: map<string, string>
    /** How many times OnReload has notified observers. */
    var reloadCount: nat
    /** The configuration version last decoded; "0" before the first. */
    var version: Option<string>

    function State(): Snapshot
      reads this
    {
      Snapshot(data, reloadCount)
    }

    /** The names are the source's, lower-cased; the region defaults to
        US East 1; the rest is copied. */
    ghost predicate ConfiguredBy(s: AwsAppConfigSettings) {
      && s.environmentName.Some? && environmentName == ToLowerInvariant(s.environmentName.value)
      && s.applicationName.Some? && applicationName == ToLowerInvariant(s.applicationName.value)
      && s.configurationName.Some? && configurationName == ToLowerInvariant(s.configurationName.value)
      && s.clientId.Some? && clientId == ToLowerInvariant(s.clientId.value)
      && regionEndpoint == s.regionEndpoint.GetOr(USEast1)
      && optional == s.optional && reloadPeriod == s.reloadPeriod && loadTimeout == s.loadTimeout
      && onLoadException == s.onLoadException
    }

    /** The constructor once its inputs are known to be non-null. */
    constructor (source: AwsAppConfigConfigurationSource)
      requires source.environmentName.Some? && source.applicationName.Some?
      requires source.configurationName.Some? && source.clientId.Some?
      ensures ConfiguredBy(source.Settings())
      ensures data == map[] && reloadCount == 0 && version == InitialVersion
    {
      regionEndpoint := source.regionEndpoint.GetOr(USEast1);
      environmentName := ToLowerInvariant(source.environmentName.value);
      applicationName := ToLowerInvariant(source.applicationName.value);
      configurationName := ToLowerInvariant(source.configurationName.value);
      clientId := ToLowerInvariant(source.clientId.value);
      optional := source.optional;
      reloadPeriod := source.reloadPeriod;
      loadTimeout := source.loadTimeout;
      onLoadException := source.onLoadException;
      data := map[];
      reloadCount := 0;
      version := InitialVersion;
    }

    /** `new AwsAppConfigConfigurationProvider(source)`: a null source raises
        ArgumentNullException; a null name makes ToLowerInvariant raise
        NullReferenceException. */
    static method New(source: AwsAppConfigConfigurationSource?) returns (r: Result<AwsAppConfigConfigurationProvider, Error>)
      ensures source == null ==> r == Failure(ArgumentNull("source"))
      ensures r.Success? <==> source != null && source.environmentName.Some? && source.applicationName.Some? &&
                              source.configurationName.Some? && source.clientId.Some?
      ensures source != null && r.Failure? ==> r.error == NullReference
      ensures r.Success? ==> fresh(r.value) && r.value.ConfiguredBy(source.Settings())
      ensures r.Success? ==> r.value.data == map[] && r.value.reloadCount == 0 && r.value.version == InitialVersion
    {
      if source == null {
        return Failure(ArgumentNull("source"));
      }
      if source.environmentName.None? || source.applicationName.None? ||
         source.configurationName.None? || source.clientId.None? {
        return Failure(NullReference);
      }
      var provider := new AwsAppConfigConfigurationProvider(source);
      return Success(provider);
    }

    /** The request GetAllKeyValuePairsAsync sends: the lower-cased names and
        the version currently held. */
    function Request(): (req: GetConfigurationRequest)
      reads this
      ensures req.clientConfigurationVersion == version
      ensures req.application == applicationName && req.configuration == configurationName
      ensures req.environment == environmentName && req.clientId == clientId
    {
      GetConfigurationRequest(applicationName, version, clientId, configurationName, environmentName)
    }

    /** ConfigurationProvider.OnReload: observers are notified once. */
    method OnReload()
      modifies this`reloadCount
      ensures reloadCount == old(reloadCount) + 1
    {
      reloadCount := reloadCount + 1;
    }

    /** GetAllKeyValuePairsAsync once the service has answered: null when the
        response carries the version already held, otherwise the decoded
        content, after which the held version is the response's. */
    method GetAllKeyValuePairs(response: ConfigurationResponse, parse: string -> Option<JsonValue>)
      returns (r: Result<Option<map<string, string>>, Error>)
      modifies this`version
      ensures (r, version) == FetchStep(old(version), response, parse)
    {
      if version == response.configurationVersion {
        return Success(None);
      }
      var result := DeserializeData(response.content, parse);
      if result.Failure? {
        return Failure(result.error);
      }
      version := response.configurationVersion;
      return Success(Some(result.value));
    }

    /** What the try block of LoadAsync obtains, and the version held after
        it, given the service and the JSON parser. */
    function FetchOutcome(service: ConfigurationService, parse: string -> Option<JsonValue>): (Result<Option<map<string, string>>, Error>, Option<string>)
      reads this
    {
      match service(Request())
      case Failure(e) => (Failure(e), version)
      case Success(response) => FetchStep(version, response, parse)
    }

    /** Load(): the reload cycle with reload = false. */
    method Load(service: ConfigurationService, parse: string -> Option<JsonValue>) returns (thrown: Option<Error>)
      modifies this`data, this`reloadCount, this`version
      ensures version == old(FetchOutcome(service, parse)).1
      ensures old(FetchOutcome(service, parse)).0.Success? ==>
        State() == Swap(old(State()), old(FetchOutcome(service, parse)).0.value) && thrown.None?
      ensures old(FetchOutcome(service, parse)).0.Failure? ==>
        var ex := old(FetchOutcome(service, parse)).0.error;
        State() == old(State()) && thrown == (if Rethrows(optional, false, onLoadException, ex) then Some(ex) else None)
    {
      ghost var context;
      thrown, context := LoadAsync(false, service, parse);
    }

    /** One reload cycle: `reload` is false for the initial Load() and true
        for a timer-driven reload. The request carries the held version; on
        success Data is swapped only on a content change; on failure the
        escalation policy decides whether the error is rethrown (`thrown`),
        and `context` is the exception context created for the callback. */
    method LoadAsync(reload: bool, service: ConfigurationService, parse: string -> Option<JsonValue>)
      returns (thrown: Option<Error>, ghost context: AwsAppConfigExceptionContext?)
      modifies this`data, this`reloadCount, this`version
      ensures version == old(FetchOutcome(service, parse)).1
      ensures old(FetchOutcome(service, parse)).0.Success? ==>
        State() == Swap(old(State()), old(FetchOutcome(service, parse)).0.value) && thrown.None? && context == null
      ensures old(FetchOutcome(service, parse)).0.Failure? ==>
        var ex := old(FetchOutcome(service, parse)).0.error;
        && State() == old(State())
        && thrown == (if Rethrows(optional, reload, onLoadException, ex) then Some(ex) else None)
        && (context != null <==> !optional && onLoadException.Some?)
        && (context != null ==>
              && fresh(context) && context.provider == this && context.exception == Some(ex)
              && context.reload == reload && context.ignore == onLoadException.value(ex, reload))
    {
      context := null;
      var kvPairs: Result<Option<map<string, string>>, Error>;
      var answer := service(Request());
      match answer {
        case Failure(e) =>
          kvPairs := Failure(e);
        case Success(response) =>
          kvPairs := GetAllKeyValuePairs(response, parse);
      }
      if kvPairs.Success? {
        if kvPairs.value.Some? && !DictionaryExtensions.ContentEquals(Some(data), kvPairs.value) {
          data := kvPairs.value.value;
          OnReload();
        }
        return None, null;
      }
      var ex := kvPairs.error;
      if optional {
        return None, null;
      }
      var ignoreException := reload;
      if onLoadException.Some? {
        var exceptionContext := new AwsAppConfigExceptionContext();
        exceptionContext.provider := this;
        exceptionContext.exception := Some(ex);
        exceptionContext.reload := reload;
        // the callback runs and leaves its decision in Ignore
        exceptionContext.ignore := onLoadException.value(exceptionContext.exception.value, exceptionContext.reload);
        ignoreException := exceptionContext.ignore;
        context := exceptionContext;
      }
      thrown := if !ignoreException then Some(ex) else None;
    }
  }

  /** A response carrying the held version changes nothing: nothing is
      decoded, Data and the notification count stay, and the version stays. */
  lemma UnchangedVersionKeepsState(s: Snapshot, version: Option<string>, response: ConfigurationResponse, parse: string -> Option<JsonValue>)
    requires response.configurationVersion == version
    ensures FetchStep(version, response, parse) == (Success(None), version)
    ensures Swap(s, FetchStep(version, response, parse).0.value) == s
  {
  }

  /** Empty content decodes to an empty, non-null configuration, which
      replaces a non-empty Data and notifies observers. */
  lemma EmptyContentClearsData(s: Snapshot, version: Option<string>, response: ConfigurationResponse, parse: string -> Option<JsonValue>)
    requires response.configurationVersion != version && response.content == ""
    requires s.data != map[]
    ensures FetchStep(version, response, parse) == (Success(Some(map[])), response.configurationVersion)
    ensures Swap(s, Some(map[])) == Snapshot(map[], s.reloads + 1)
  {
    var k :| k in s.data;
    DictionaryExtensions.ContentEqualsDetectsDifference(s.data, map[], k);
  }
}
