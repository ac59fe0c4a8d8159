/** The reload cycle shared, line for line, by AwsAppConfigConfigurationProvider
    and YcLockboxConfigurationProvider (their LoadAsync methods): the swap of
    the Data snapshot on a content change, and the escalation policy applied
    to a failed fetch. Each provider's LoadAsync is proved against these
    definitions. */
module ReloadPolicy {
  import opened Wrappers
  import opened Failures
  import DictionaryExtensions

  /** An OnLoadException callback, seen through what it decides: given the
      context's Exception and Reload, the value it leaves in Ignore (which
      starts false). */
  type LoadExceptionCallback = (Error, bool) -> bool

  /** The state LoadAsync changes on success: the Data dictionary and the
      number of OnReload notifications sent so far. */
  datatype Snapshot = Snapshot(data: map<string, string>, reloads: nat)

  /** The success path of LoadAsync: a null result (nothing new) leaves the
      snapshot alone; a decoded dictionary replaces Data and fires OnReload
      only when it is not content-equal to the current Data. */
  function Swap(s: Snapshot, kvPairs: Option<map<string, string>>): Snapshot {
    if kvPairs.Some? && !DictionaryExtensions.ContentEquals(Some(s.data), kvPairs)
    then Snapshot(kvPairs.value, s.reloads + 1)
    else s
  }

  /** After a successful fetch Data holds the decoded content, and exactly one
      notification is sent exactly when that content differs from the old. */
  lemma SwapNotifiesIffChanged(s: Snapshot, kvPairs: Option<map<string, string>>)
    ensures kvPairs.Some? ==> Swap(s, kvPairs).data == kvPairs.value
    ensures kvPairs.None? ==> Swap(s, kvPairs) == s
    ensures Swap(s, kvPairs).reloads == s.reloads + 1 <==> kvPairs.Some? && kvPairs.value != s.data
    ensures Swap(s, kvPairs).reloads == s.reloads <==> kvPairs.None? || kvPairs.value == s.data
  {
  }

  /** Reloading the same content twice notifies observers at most once. */
  lemma SwapIdempotent(s: Snapshot, kvPairs: Option<map<string, string>>)
    ensures Swap(Swap(s, kvPairs), kvPairs) == Swap(s, kvPairs)
  {
  }

  /** The Ignore value the registered callback leaves, if one is registered. */
  function CallbackIgnore(onLoadException: Option<LoadExceptionCallback>, ex: Error, reload: bool): Option<bool> {
    match onLoadException
    case None => None
    case Some(callback) => Some(callback(ex, reload))
  }

  /** The catch block of LoadAsync: an optional provider swallows every
      error; otherwise the error is ignored by default during a timer reload
      and not during the initial load, a registered callback's Ignore
      overrides that default, and a not-ignored error is rethrown. */
  function Rethrows(optional: bool, reload: bool, onLoadException: Option<LoadExceptionCallback>, ex: Error): bool {
    if optional then false
    else
      var ignoreException := CallbackIgnore(onLoadException, ex, reload).GetOr(reload);
      !ignoreException
  }

  /** The four escalation outcomes, case by case. */
  lemma EscalationCases(optional: bool, reload: bool, onLoadException: Option<LoadExceptionCallback>, ex: Error)
    ensures optional ==> !Rethrows(optional, reload, onLoadException, ex)
    ensures !optional && onLoadException.None? ==> (Rethrows(optional, reload, onLoadException, ex) <==> !reload)
    ensures !optional && onLoadException.Some? ==>
      (Rethrows(optional, reload, onLoadException, ex) <==> !onLoadException.value(ex, reload))
  {
  }

  /** A callback that leaves Ignore false makes even a timer reload fail, and
      one that sets it suppresses even the initial load's failure. */
  lemma CallbackIsAuthoritative(reload: bool, ex: Error)
    ensures Rethrows(false, reload, Some((e: Error, r: bool) => false), ex)
    ensures !Rethrows(false, reload, Some((e: Error, r: bool) => true), ex)
  {
  }
}
