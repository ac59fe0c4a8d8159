/** ConfigurationBuilderExtensions: AddAwsAppConfigConfiguration and
    AddYandexCloudLockboxConfiguration create a source with default
    settings, run the configure callback on it, validate the result in a
    fixed order and only then append the source to the builder. */
module ConfigurationBuilderExtensions {
  import opened Wrappers
  import opened Failures
  import opened Text
  import AwsAppConfig
  import YcLockbox

  /** An entry of IConfigurationBuilder.Sources. */
  datatype ConfigurationSource =
    | AwsSource(aws: AwsAppConfig.AwsAppConfigConfigurationSource)
    | LockboxSource(lockbox: YcLockbox.YcLockboxConfigurationSource)

  /** IConfigurationBuilder, seen through its list of sources. */
  class ConfigurationBuilder {
    var sources: seq<ConfigurationSource>

    constructor ()
      ensures sources == []
    {
      sources := [];
    }

    /** IConfigurationBuilder.Add. */
    method Add(source: ConfigurationSource)
      modifies this`sources
      ensures sources == old(sources) + [source]
    {
      sources := sources + [source];
    }
  }

  /** The strings AddAwsAppConfigConfiguration requires, in checking order,
      and their property names. */
  function AwsRequired(s: AwsAppConfig.AwsAppConfigSettings): seq<Option<string>> {
    [s.environmentName, s.applicationName, s.configurationName, s.clientId]
  }
  const AwsRequiredNames: seq<string> := ["EnvironmentName", "ApplicationName", "ConfigurationName", "ClientId"]

  /** The strings AddYandexCloudLockboxConfiguration requires, in checking
      order, and their property names. */
  function LockboxRequired(s: YcLockbox.YcLockboxSettings): seq<Option<string>> {
    [s.serviceAccountId, s.serviceAccountAuthorizedKeyId, s.privateKey, s.secretId]
  }
  const LockboxRequiredNames: seq<string> := ["ServiceAccountId", "ServiceAccountAuthorizedKeyId", "PrivateKey", "SecretId"]

  /** `err` reports the first null or empty entry of `values`, by name. */
  ghost predicate ReportsFirstEmpty(values: seq<Option<string>>, names: seq<string>, err: Error)
    requires |values| == |names|
  {
    exists i :: 0 <= i < |values| && IsNullOrEmpty(values[i]) && err == ArgumentNull(names[i]) &&
      forall j :: 0 <= j < i ==> !IsNullOrEmpty(values[j])
  }

  lemma FirstEmptyAt(values: seq<Option<string>>, names: seq<string>, i: nat)
    requires |values| == |names| && i < |values| && IsNullOrEmpty(values[i])
    requires forall j :: 0 <= j < i ==> !IsNullOrEmpty(values[j])
    ensures ReportsFirstEmpty(values, names, ArgumentNull(names[i]))
  {
  }

  /** The checks of AddAwsAppConfigConfiguration: the error raised for the
      configured settings, if any. */
  function ValidateAwsSettings(s: AwsAppConfig.AwsAppConfigSettings): Option<Error> {
    if IsNullOrEmpty(s.environmentName) then Some(ArgumentNull("EnvironmentName"))
    else if IsNullOrEmpty(s.applicationName) then Some(ArgumentNull("ApplicationName"))
    else if IsNullOrEmpty(s.configurationName) then Some(ArgumentNull("ConfigurationName"))
    else if IsNullOrEmpty(s.clientId) then Some(ArgumentNull("ClientId"))
    else None
  }

  /** The AWS settings pass exactly when all four names are non-empty, and a
      failure names the first empty one in checking order. */
  lemma {:induction false} ValidateAwsSettingsReportsFirstEmpty(s: AwsAppConfig.AwsAppConfigSettings)
    ensures ValidateAwsSettings(s).None? <==> forall i :: 0 <= i < |AwsRequired(s)| ==> !IsNullOrEmpty(AwsRequired(s)[i])
    ensures ValidateAwsSettings(s).Some? ==> ReportsFirstEmpty(AwsRequired(s), AwsRequiredNames, ValidateAwsSettings(s).value)
  {
    var values := AwsRequired(s);
    if IsNullOrEmpty(values[0]) {
      FirstEmptyAt(values, AwsRequiredNames, 0);
    } else if IsNullOrEmpty(values[1]) {
      FirstEmptyAt(values, AwsRequiredNames, 1);
    } else if IsNullOrEmpty(values[2]) {
      FirstEmptyAt(values, AwsRequiredNames, 2);
    } else if IsNullOrEmpty(values[3]) {
      FirstEmptyAt(values, AwsRequiredNames, 3);
    }
  }

  /** The checks of AddYandexCloudLockboxConfiguration: four required
      strings in order, then a separator other than '\0'. */
  function ValidateLockboxSettings(s: YcLockbox.YcLockboxSettings): Option<Error> {
    if IsNullOrEmpty(s.serviceAccountId) then Some(ArgumentNull("ServiceAccountId"))
    else if IsNullOrEmpty(s.serviceAccountAuthorizedKeyId) then Some(ArgumentNull("ServiceAccountAuthorizedKeyId"))
    else if IsNullOrEmpty(s.privateKey) then Some(ArgumentNull("PrivateKey"))
    else if IsNullOrEmpty(s.secretId) then Some(ArgumentNull("SecretId"))
    else if s.pathSeparator == '\0' then Some(ArgumentNull("PathSeparator"))
    else None
  }

  /** The Lockbox settings pass exactly when the four strings are non-empty
      and the separator is not '\0'; a failure names the first empty string,
      or the separator when every string is set. */
  lemma {:induction false} ValidateLockboxSettingsReportsFirstEmpty(s: YcLockbox.YcLockboxSettings)
    ensures ValidateLockboxSettings(s).None? <==>
      (forall i :: 0 <= i < |LockboxRequired(s)| ==> !IsNullOrEmpty(LockboxRequired(s)[i])) && s.pathSeparator != '\0'
    ensures ValidateLockboxSettings(s).Some? && (exists i :: 0 <= i < |LockboxRequired(s)| && IsNullOrEmpty(LockboxRequired(s)[i])) ==>
      ReportsFirstEmpty(LockboxRequired(s), LockboxRequiredNames, ValidateLockboxSettings(s).value)
    ensures (forall i :: 0 <= i < |LockboxRequired(s)| ==> !IsNullOrEmpty(LockboxRequired(s)[i])) && s.pathSeparator == '\0' ==>
      ValidateLockboxSettings(s) == Some(ArgumentNull("PathSeparator"))
  {
    var values := LockboxRequired(s);
    if IsNullOrEmpty(values[0]) {
      FirstEmptyAt(values, LockboxRequiredNames, 0);
    } else if IsNullOrEmpty(values[1]) {
      FirstEmptyAt(values, LockboxRequiredNames, 1);
    } else if IsNullOrEmpty(values[2]) {
      FirstEmptyAt(values, LockboxRequiredNames, 2);
    } else if IsNullOrEmpty(values[3]) {
      FirstEmptyAt(values, LockboxRequiredNames, 3);
    }
  }

  /** AddAwsAppConfigConfiguration. `configureSource` None is a null
      callback. The callback runs on a fresh source with default settings;
      on a failed check the builder is untouched, otherwise exactly that
      source is appended and the same builder returned. */
  method AddAwsAppConfigConfiguration(builder: ConfigurationBuilder,
                                      configureSource: Option<AwsAppConfig.AwsAppConfigSettings -> AwsAppConfig.AwsAppConfigSettings>)
    returns (r: Result<ConfigurationBuilder, Error>)
    modifies builder`sources
    ensures configureSource.None? ==> r == Failure(ArgumentNull("configureSource")) && builder.sources == old(builder.sources)
    ensures configureSource.Some? ==>
      var settings := configureSource.value(AwsAppConfig.DefaultSettings());
      && (ValidateAwsSettings(settings).Some? ==>
            r == Failure(ValidateAwsSettings(settings).value) && builder.sources == old(builder.sources))
      && (ValidateAwsSettings(settings).None? ==>
            && r == Success(builder)
            && |builder.sources| == |old(builder.sources)| + 1
            && builder.sources[..|old(builder.sources)|] == old(builder.sources)
            && var added := builder.sources[|old(builder.sources)|];
               added.AwsSource? && fresh(added.aws) && added.aws.Settings() == settings)
  {
    if configureSource.None? {
      return Failure(ArgumentNull("configureSource"));
    }
    var source := new AwsAppConfig.AwsAppConfigConfigurationSource();
    source.Configure(configureSource.value);
    if IsNullOrEmpty(source.environmentName) {
      return Failure(ArgumentNull("EnvironmentName"));
    }
    if IsNullOrEmpty(source.applicationName) {
      return Failure(ArgumentNull("ApplicationName"));
    }
    if IsNullOrEmpty(source.configurationName) {
      return Failure(ArgumentNull("ConfigurationName"));
    }
    if IsNullOrEmpty(source.clientId) {
      return Failure(ArgumentNull("ClientId"));
    }
    builder.Add(AwsSource(source));
    return Success(builder);
  }

  /** AddYandexCloudLockboxConfiguration, with the same shape as
      AddAwsAppConfigConfiguration and the Lockbox checks. */
  method AddYandexCloudLockboxConfiguration(builder: ConfigurationBuilder,
                                            configureSource: Option<YcLockbox.YcLockboxSettings -> YcLockbox.YcLockboxSettings>)
    returns (r: Result<ConfigurationBuilder, Error>)
    modifies builder`sources
    ensures configureSource.None? ==> r == Failure(ArgumentNull("configureSource")) && builder.sources == old(builder.sources)
    ensures configureSource.Some? ==>
      var settings := configureSource.value(YcLockbox.DefaultSettings());
      && (ValidateLockboxSettings(settings).Some? ==>
            r == Failure(ValidateLockboxSettings(settings).value) && builder.sources == old(builder.sources))
      && (ValidateLockboxSettings(settings).None? ==>
            && r == Success(builder)
            && |builder.sources| == |old(builder.sources)| + 1
            && builder.sources[..|old(builder.sources)|] == old(builder.sources)
            && var added := builder.sources[|old(builder.sources)|];
               added.LockboxSource? && fresh(added.lockbox) && added.lockbox.Settings() == settings)
  {
    if configureSource.None? {
      return Failure(ArgumentNull("configureSource"));
    }
    var source := new YcLockbox.YcLockboxConfigurationSource();
    source.Configure(configureSource.value);
    if IsNullOrEmpty(source.serviceAccountId) {
      return Failure(ArgumentNull("ServiceAccountId"));
    }
    if IsNullOrEmpty(source.serviceAccountAuthorizedKeyId) {
      return Failure(ArgumentNull("ServiceAccountAuthorizedKeyId"));
    }
    if IsNullOrEmpty(source.privateKey) {
      return Failure(ArgumentNull("PrivateKey"));
    }
    if IsNullOrEmpty(source.secretId) {
      return Failure(ArgumentNull("SecretId"));
    }
    if source.pathSeparator == '\0' {
      return Failure(ArgumentNull("PathSeparator"));
    }
    builder.Add(LockboxSource(source));
    return Success(builder);
  }

  /** A source left with its default separator is refused, whatever else is
      set: '\0' is the default and the builder rejects it. */
  lemma DefaultSeparatorRejected(s: YcLockbox.YcLockboxSettings)
    requires s.pathSeparator == YcLockbox.DefaultSettings().pathSeparator
    ensures ValidateLockboxSettings(s).Some?
  {
  }

  /** A callback that leaves the defaults untouched fails the first check. */
  lemma DefaultsFailFirstCheck()
    ensures ValidateAwsSettings(AwsAppConfig.DefaultSettings()) == Some(ArgumentNull("EnvironmentName"))
    ensures ValidateLockboxSettings(YcLockbox.DefaultSettings()) == Some(ArgumentNull("ServiceAccountId"))
  {
  }
}
