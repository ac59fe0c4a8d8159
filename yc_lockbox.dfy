/** The Yandex Cloud Lockbox configuration source, its exception context and
    its provider. The provider keeps the Data snapshot and the count of
    OnReload notifications as fields; the secret payload the remote service
    returns is a parameter of each load. */
module YcLockbox {
  import opened Wrappers
  import opened Failures
  import opened Text
  import opened ReloadPolicy
  import opened YcLockboxKeys
  import DictionaryExtensions

  /** TimeSpan.FromSeconds(60), in seconds. */
  const DefaultLoadTimeout: int := 60
  /** TimeSpan.FromDays(7), in seconds. */
  const DefaultReloadPeriod: int := 7 * 24 * 60 * 60

  /** The settable properties of YcLockboxConfigurationSource as one value:
      what a configure callback reads and writes. The last three are the
      service-account credentials the builder validates. */
  datatype YcLockboxSettings = YcLockboxSettings(
    oauthToken: Option<string>,
    secretId: Option<string>,
    path: Option<string>,
    pathSeparator: char,
    optional: bool,
    loadTimeout: int,
    reloadPeriod: int,
    onLoadException: Option<LoadExceptionCallback>,
    serviceAccountId: Option<string>,
    serviceAccountAuthorizedKeyId: Option<string>,
    privateKey: Option<string>)

  /** A fresh source: strings null, separator '\0', not optional, a 60-second
      load timeout, a 7-day reload period, no callback. */
  function DefaultSettings(): (s: YcLockboxSettings)
    ensures s.pathSeparator == '\0' && !s.optional
    ensures s.loadTimeout == 60 && s.reloadPeriod == 604800
    ensures s.onLoadException.None? && s.oauthToken.None? && s.secretId.None? && s.path.None?
  {
    YcLockboxSettings(None, None, None, '\0', false, DefaultLoadTimeout, DefaultReloadPeriod, None, None, None, None)
  }

  class YcLockboxConfigurationSource {
    var oauthToken: Option<string>
    var secretId: Option<string>
    var path: Option<string>
    var pathSeparator: char
    var optional: bool
    var loadTimeout: int
    var reloadPeriod: int
    var onLoadException: Option<LoadExceptionCallback>
    var serviceAccountId: Option<string>
    var serviceAccountAuthorizedKeyId: Option<string>
    var privateKey: Option<string>

    function Settings(): YcLockboxSettings
      reads this
    {
      YcLockboxSettings(oauthToken, secretId, path, pathSeparator, optional, loadTimeout, reloadPeriod,
                        onLoadException, serviceAccountId, serviceAccountAuthorizedKeyId, privateKey)
    }

    constructor ()
      ensures Settings() == DefaultSettings()
    {
      oauthToken, secretId, path, pathSeparator := None, None, None, '\0';
      optional, loadTimeout, reloadPeriod, onLoadException := false, DefaultLoadTimeout, DefaultReloadPeriod, None;
      serviceAccountId, serviceAccountAuthorizedKeyId, privateKey := None, None, None;
    }

    /** A configure callback run on this source: it sets the properties to
        the values it computes from the current ones. */
    method Configure(configure: YcLockboxSettings -> YcLockboxSettings)
      modifies this
      ensures Settings() == configure(old(Settings()))
    {
      var s := configure(Settings());
      oauthToken, secretId, path, pathSeparator := s.oauthToken, s.secretId, s.path, s.pathSeparator;
      optional, loadTimeout, reloadPeriod, onLoadException := s.optional, s.loadTimeout, s.reloadPeriod, s.onLoadException;
      serviceAccountId, serviceAccountAuthorizedKeyId, privateKey := s.serviceAccountId, s.serviceAccountAuthorizedKeyId, s.privateKey;
    }

    /** IConfigurationSource.Build: a new provider constructed from this
        source, or the constructor's ArgumentException. */
    method Build() returns (r: Result<YcLockboxConfigurationProvider, Error>)
      ensures r.Failure? <==> IsNullOrEmpty(oauthToken)
      ensures r.Failure? ==> r.error == Argument("OauthToken")
      ensures r.Success? ==> fresh(r.value) && r.value.ConfiguredBy(Settings())
      ensures r.Success? ==> r.value.data == map[] && r.value.reloadCount == 0
    {
      r := YcLockboxConfigurationProvider.New(this);
    }
  }

  /** The context handed to the OnLoadException callback. */
  class YcLockboxExceptionContext {
    var provider: YcLockboxConfigurationProvider?
    var exception: Option<Error>
    var ignore: bool
    var reload: bool

    constructor ()
      ensures provider == null && exception.None? && !ignore && !reload
    {
      provider, exception, ignore, reload := null, None, false, false;
    }
  }

  class YcLockboxConfigurationProvider {
    const optional: bool
    const secretId: Option<string>
    const path: Option<string>
    const pathSeparator: char
    const reloadPeriod: int
    const loadTimeout: int
    const onLoadException: Option<LoadExceptionCallback>

    /** ConfigurationProvider.Data, initially empty. */
    var data: map<string, string>
    /** How many times OnReload has notified observers. */
    var reloadCount: nat

    function State(): Snapshot
      reads this
    {
      Snapshot(data, reloadCount)
    }

    /** The provider's read-only settings are copied from s. */
    ghost predicate ConfiguredBy(s: YcLockboxSettings) {
      && optional == s.optional && secretId == s.secretId && path == s.path
      && pathSeparator == s.pathSeparator && reloadPeriod == s.reloadPeriod
      && loadTimeout == s.loadTimeout && onLoadException == s.onLoadException
    }

    /** The constructor past its guard clauses. */
    constructor (source: YcLockboxConfigurationSource)
      requires !IsNullOrEmpty(source.oauthToken)
      ensures ConfiguredBy(source.Settings())
      ensures data == map[] && reloadCount == 0
    {
      optional := source.optional;
      secretId := source.secretId;
      path := source.path;
      pathSeparator := source.pathSeparator;
      reloadPeriod := source.reloadPeriod;
      loadTimeout := source.loadTimeout;
      onLoadException := source.onLoadException;
      data := map[];
      reloadCount := 0;
    }

    /** `new YcLockboxConfigurationProvider(source)`: a null source raises
        ArgumentNullException, a null or empty OauthToken ArgumentException. */
    static method New(source: YcLockboxConfigurationSource?) returns (r: Result<YcLockboxConfigurationProvider, Error>)
      ensures source == null ==> r == Failure(ArgumentNull("source"))
      ensures source != null && IsNullOrEmpty(source.oauthToken) ==> r == Failure(Argument("OauthToken"))
      ensures r.Success? <==> source != null && !IsNullOrEmpty(source.oauthToken)
      ensures r.Success? ==> fresh(r.value) && r.value.ConfiguredBy(source.Settings())
      ensures r.Success? ==> r.value.data == map[] && r.value.reloadCount == 0
    {
      if source == null {
        return Failure(ArgumentNull("source"));
      }
      if IsNullOrEmpty(source.oauthToken) {
        return Failure(Argument("OauthToken"));
      }
      var provider := new YcLockboxConfigurationProvider(source);
      return Success(provider);
    }

    /** ConfigurationProvider.OnReload: observers are notified once. */
    method OnReload()
      modifies this`reloadCount
      ensures reloadCount == old(reloadCount) + 1
    {
      reloadCount := reloadCount + 1;
    }

    /** GetAllKeyValuePairsAsync once the payload's entries are fetched: null
        for no entries, otherwise the entries decoded one by one into a
        case-insensitive dictionary, stopping at the first failure. */
    method GetAllKeyValuePairs(entries: seq<Entry>) returns (r: Result<Option<map<string, string>>, Error>)
      ensures r == DecodePayload(entries, path, pathSeparator)
    {
      var result: map<string, string> := map[];
      if |entries| == 0 {
        return Success(None);
      }
      var i := 0;
      while i < |entries|
        invariant 0 <= i <= |entries|
        invariant DecodeEntries(entries[..i], path, pathSeparator) == Success(result)
      {
        var entry := entries[i];
        DecodeStep(entries, i, result, path, pathSeparator);
        match entry.value {
          case TextValue(text) =>
            var keyPath := entry.key;
            if !IsNullOrEmpty(path) && StartsWithIgnoreCase(keyPath, path.value) {
              keyPath := TrimStart(keyPath[|path.value|..], pathSeparator);
            }
            keyPath := Replace(keyPath, pathSeparator, ConfigurationKeyDelimiter);
            assert keyPath == TransformKey(entry.key, path, pathSeparator);
            // Dictionary.Add under OrdinalIgnoreCase
            if ContainsKeyIgnoreCase(result, keyPath) {
              FailurePersists(entries, i + 1, path, pathSeparator);
              return Failure(DuplicateKey(keyPath));
            }
            assert AddEntry(result, entry, path, pathSeparator) == Success(result[keyPath := text]);
            result := result[keyPath := text];
          case BinaryValue(_) =>
            FailurePersists(entries, i + 1, path, pathSeparator);
            return Failure(NotSupported("Binary secret key type is not supported"));
          case NoValue =>
            FailurePersists(entries, i + 1, path, pathSeparator);
            return Failure(NotSupported("Unknown secret key type"));
        }
        i := i + 1;
      }
      assert entries[..i] == entries;
      return Success(Some(result));
    }

    /** What the try block obtains: the fetch's own failure (transport,
        authentication, timeout), or the decoded payload. */
    function FetchOutcome(fetched: Result<seq<Entry>, Error>): Result<Option<map<string, string>>, Error> {
      match fetched
      case Failure(e) => Failure(e)
      case Success(entries) => DecodePayload(entries, path, pathSeparator)
    }

    /** Load(): the reload cycle with reload = false. */
    method Load(fetched: Result<seq<Entry>, Error>) returns (thrown: Option<Error>)
      modifies this`data, this`reloadCount
      ensures FetchOutcome(fetched).Success? ==> State() == Swap(old(State()), FetchOutcome(fetched).value) && thrown.None?
      ensures FetchOutcome(fetched).Failure? ==>
        State() == old(State()) &&
        thrown == (if Rethrows(optional, false, onLoadException, FetchOutcome(fetched).error) then Some(FetchOutcome(fetched).error) else None)
    {
      ghost var context;
      thrown, context := LoadAsync(false, fetched);
    }

    /** One reload cycle. `fetched` is what the Lockbox payload service
        returned for secretId within loadTimeout; `reload` is false for the
        initial Load() and true for a timer-driven reload. On success Data
        is swapped only on a content change; on failure the escalation
        policy decides whether the error is rethrown (`thrown`). `context`
        is the exception context created for the callback, if any. */
    method LoadAsync(reload: bool, fetched: Result<seq<Entry>, Error>) returns (thrown: Option<Error>, ghost context: YcLockboxExceptionContext?)
      modifies this`data, this`reloadCount
      ensures FetchOutcome(fetched).Success? ==>
        State() == Swap(old(State()), FetchOutcome(fetched).value) && thrown.None? && context == null
      ensures FetchOutcome(fetched).Failure? ==>
        var ex := FetchOutcome(fetched).error;
        && State() == old(State())
        && thrown == (if Rethrows(optional, reload, onLoadException, ex) then Some(ex) else None)
        && (context != null <==> !optional && onLoadException.Some?)
        && (context != null ==>
              && fresh(context) && context.provider == this && context.exception == Some(ex)
              && context.reload == reload && context.ignore == onLoadException.value(ex, reload))
    {
      context := null;
      var kvPairs: Result<Option<map<string, string>>, Error>;
      match fetched {
        case Failure(e) =>
          kvPairs := Failure(e);
        case Success(entries) =>
          kvPairs := GetAllKeyValuePairs(entries);
      }
      if kvPairs.Success? {
        if kvPairs.value.Some? && !DictionaryExtensions.ContentEquals(Some(data), kvPairs.value) {
          data := kvPairs.value.value;
          OnReload();
        }
        return None, null;
      }
      var ex := kvPairs.error;
      if optional {
        return None, null;
      }
      var ignoreException := reload;
      if onLoadException.Some? {
        var exceptionContext := new YcLockboxExceptionContext();
        exceptionContext.provider := this;
        exceptionContext.exception := Some(ex);
        exceptionContext.reload := reload;
        // the callback runs and leaves its decision in Ignore
        exceptionContext.ignore := onLoadException.value(exceptionContext.exception.value, exceptionContext.reload);
        ignoreException := exceptionContext.ignore;
        context := exceptionContext;
      }
      thrown := if !ignoreException then Some(ex) else None;
    }
  }

  /** An empty secret payload decodes to null, so a load leaves Data and the
      notification count as they were. */
  lemma EmptyPayloadKeepsData(s: Snapshot, path: Option<string>, pathSeparator: char)
    ensures DecodePayload([], path, pathSeparator) == Success(None)
    ensures Swap(s, DecodePayload([], path, pathSeparator).value) == s
  {
  }
}
