/** What YcLockboxConfigurationProvider.GetAllKeyValuePairsAsync computes
    from a Lockbox secret payload, as pure definitions: the key transformation
    and the decoding of a list of entries into a flat configuration
    dictionary. The provider's loop is proved against DecodePayload. */
module YcLockboxKeys {
  import opened Wrappers
  import opened Failures
  import opened Text

  /** ConfigurationProvider's hierarchical key delimiter. */
  const ConfigurationKeyDelimiter: char := ':'

  /** Entry.ValueOneofCase with its payload: a Lockbox entry holds text, bytes,
      or nothing (the unset / unknown case). */
  datatype EntryValue = TextValue(text: string) | BinaryValue(bytes: seq<bv8>) | NoValue

  datatype Entry = Entry(key: string, value: EntryValue)

  /** The prefix is stripped when Path is set and the key starts with it,
      ignoring case. */
  predicate StripsPrefix(key: string, path: Option<string>) {
    !IsNullOrEmpty(path) && StartsWithIgnoreCase(key, path.value)
  }

  /** The configuration key of an entry: the prefix and then every leading
      separator removed (when the prefix matches), and every separator
      replaced by ':'. */
  function TransformKey(key: string, path: Option<string>, pathSeparator: char): (r: string)
    ensures pathSeparator != ConfigurationKeyDelimiter ==> forall i :: 0 <= i < |r| ==> r[i] != pathSeparator
  {
    var keyPath := if StripsPrefix(key, path) then TrimStart(key[|path.value|..], pathSeparator) else key;
    Replace(keyPath, pathSeparator, ConfigurationKeyDelimiter)
  }

  /** Without a matching prefix only the separators are translated; with
      one, the key is what follows the prefix and the run of separators
      after it, translated the same way. */
  lemma TransformKeyShape(key: string, path: Option<string>, pathSeparator: char)
    ensures var r := TransformKey(key, path, pathSeparator);
      !StripsPrefix(key, path) ==> (|r| == |key| &&
        forall i :: 0 <= i < |key| ==> r[i] == (if key[i] == pathSeparator then ConfigurationKeyDelimiter else key[i]))
    ensures var r := TransformKey(key, path, pathSeparator);
      StripsPrefix(key, path) ==> |r| <= |key| - |path.value|
    ensures var r := TransformKey(key, path, pathSeparator);
      StripsPrefix(key, path) && |r| <= |key| ==>
        && (forall i :: |path.value| <= i < |key| - |r| ==> key[i] == pathSeparator)
        && (|r| == 0 || key[|key| - |r|] != pathSeparator)
        && forall i :: 0 <= i < |r| ==>
             r[i] == (if key[|key| - |r| + i] == pathSeparator then ConfigurationKeyDelimiter else key[|key| - |r| + i])
  {
  }

  /** Whether the result dictionary (OrdinalIgnoreCase) already has the key. */
  predicate ContainsKeyIgnoreCase(result: map<string, string>, key: string) {
    exists k :: k in result && EqualsIgnoreCase(k, key)
  }

  /** One iteration of the foreach loop: a text entry is added under its
      transformed key (Dictionary.Add fails on a key already present up to
      case); a binary or unknown entry aborts with NotSupportedException. */
  function AddEntry(result: map<string, string>, entry: Entry, path: Option<string>, pathSeparator: char): Result<map<string, string>, Error> {
    match entry.value
    case TextValue(text) =>
      var keyPath := TransformKey(entry.key, path, pathSeparator);
      if ContainsKeyIgnoreCase(result, keyPath) then Failure(DuplicateKey(keyPath))
      else Success(result[keyPath := text])
    case BinaryValue(_) => Failure(NotSupported("Binary secret key type is not supported"))
    case NoValue => Failure(NotSupported("Unknown secret key type"))
  }

  /** The entries folded, in order, into an initially empty dictionary. The
      first failing entry decides the error; no partial dictionary escapes. */
  function DecodeEntries(entries: seq<Entry>, path: Option<string>, pathSeparator: char): Result<map<string, string>, Error>
    decreases |entries|
  {
    if entries == [] then Success(map[])
    else
      match DecodeEntries(entries[..|entries| - 1], path, pathSeparator)
      case Failure(e) => Failure(e)
      case Success(result) => AddEntry(result, entries[|entries| - 1], path, pathSeparator)
  }

  /** GetAllKeyValuePairsAsync after the fetch: an empty entry list gives
      null (None), anything else the decoded dictionary or the error. */
  function DecodePayload(entries: seq<Entry>, path: Option<string>, pathSeparator: char): Result<Option<map<string, string>>, Error> {
    if |entries| == 0 then Success(None)
    else
      match DecodeEntries(entries, path, pathSeparator)
      case Failure(e) => Failure(e)
      case Success(result) => Success(Some(result))
  }

  function EntryKey(entry: Entry, path: Option<string>, pathSeparator: char): string {
    TransformKey(entry.key, path, pathSeparator)
  }

  function KeySet(entries: seq<Entry>, path: Option<string>, pathSeparator: char): set<string> {
    set i | 0 <= i < |entries| :: EntryKey(entries[i], path, pathSeparator)
  }

  predicate AllText(entries: seq<Entry>) {
    forall i :: 0 <= i < |entries| ==> entries[i].value.TextValue?
  }

  /** No two entries' transformed keys are equal ignoring case. */
  predicate KeysDistinct(entries: seq<Entry>, path: Option<string>, pathSeparator: char) {
    forall i, j :: 0 <= i < j < |entries| ==>
      !EqualsIgnoreCase(EntryKey(entries[i], path, pathSeparator), EntryKey(entries[j], path, pathSeparator))
  }

  /** Once a prefix of the entries fails, decoding all of them fails with the
      same error: the loop may stop at the first failing entry. */
  lemma {:induction false} FailurePersists(entries: seq<Entry>, i: nat, path: Option<string>, pathSeparator: char)
    requires i <= |entries|
    requires DecodeEntries(entries[..i], path, pathSeparator).Failure?
    ensures DecodeEntries(entries, path, pathSeparator) == DecodeEntries(entries[..i], path, pathSeparator)
    decreases |entries| - i
  {
    if i == |entries| {
      assert entries[..i] == entries;
    } else {
      assert entries[..|entries| - 1][..i] == entries[..i];
      FailurePersists(entries[..|entries| - 1], i, path, pathSeparator);
    }
  }

  /** Decoding one more entry is one more AddEntry. */
  lemma DecodeStep(entries: seq<Entry>, i: nat, result: map<string, string>, path: Option<string>, pathSeparator: char)
    requires i < |entries| && DecodeEntries(entries[..i], path, pathSeparator) == Success(result)
    ensures DecodeEntries(entries[..i + 1], path, pathSeparator) == AddEntry(result, entries[i], path, pathSeparator)
  {
    assert entries[..i + 1][..i] == entries[..i];
  }

  /** The invariant of the fold: a dictionary that holds exactly the
      entries decoded so far. */
  predicate Decoded(result: map<string, string>, entries: seq<Entry>, path: Option<string>, pathSeparator: char) {
    && AllText(entries)
    && KeysDistinct(entries, path, pathSeparator)
    && result.Keys == KeySet(entries, path, pathSeparator)
    && forall i :: 0 <= i < |entries| ==> result[EntryKey(entries[i], path, pathSeparator)] == entries[i].value.text
  }

  /** A key already present up to case means two colliding entries. */
  lemma CollisionBreaksDistinctness(result: map<string, string>, init: seq<Entry>, last: Entry, path: Option<string>, pathSeparator: char)
    requires Decoded(result, init, path, pathSeparator)
    requires ContainsKeyIgnoreCase(result, EntryKey(last, path, pathSeparator))
    ensures !KeysDistinct(init + [last], path, pathSeparator)
  {
    var entries := init + [last];
    var k :| k in result && EqualsIgnoreCase(k, EntryKey(last, path, pathSeparator));
    var i :| 0 <= i < |init| && EntryKey(init[i], path, pathSeparator) == k;
    assert entries[i] == init[i] && entries[|init|] == last;
  }

  lemma FreshKeyKeepsDistinct(result: map<string, string>, init: seq<Entry>, last: Entry, path: Option<string>, pathSeparator: char)
    requires Decoded(result, init, path, pathSeparator)
    requires !ContainsKeyIgnoreCase(result, EntryKey(last, path, pathSeparator))
    ensures KeysDistinct(init + [last], path, pathSeparator)
  {
    var entries := init + [last];
    var n := |init|;
    forall i, j | 0 <= i < j < |entries|
      ensures !EqualsIgnoreCase(EntryKey(entries[i], path, pathSeparator), EntryKey(entries[j], path, pathSeparator))
    {
      assert entries[i] == init[i] || i == n;
      if j == n {
        assert entries[j] == last && entries[i] == init[i];
        assert EntryKey(init[i], path, pathSeparator) in result;
      } else {
        assert entries[j] == init[j] && entries[i] == init[i];
      }
    }
  }

  lemma FreshKeyKeepsKeys(result: map<string, string>, init: seq<Entry>, last: Entry, path: Option<string>, pathSeparator: char)
    requires Decoded(result, init, path, pathSeparator)
    requires last.value.TextValue?
    ensures result[EntryKey(last, path, pathSeparator) := last.value.text].Keys == KeySet(init + [last], path, pathSeparator)
  {
    var entries := init + [last];
    var lastKey := EntryKey(last, path, pathSeparator);
    forall k | k in KeySet(entries, path, pathSeparator)
      ensures k in result.Keys + {lastKey}
    {
      var i :| 0 <= i < |entries| && EntryKey(entries[i], path, pathSeparator) == k;
      if i < |init| {
        assert entries[i] == init[i];
        assert k in KeySet(init, path, pathSeparator);
      }
    }
    forall k | k in result.Keys + {lastKey}
      ensures k in KeySet(entries, path, pathSeparator)
    {
      if k == lastKey {
        assert entries[|init|] == last;
      } else {
        assert k in KeySet(init, path, pathSeparator);
        var i :| 0 <= i < |init| && EntryKey(init[i], path, pathSeparator) == k;
        assert entries[i] == init[i];
      }
    }
  }

  lemma FreshKeyKeepsValues(result: map<string, string>, init: seq<Entry>, last: Entry, path: Option<string>, pathSeparator: char)
    requires Decoded(result, init, path, pathSeparator)
    requires last.value.TextValue?
    requires !ContainsKeyIgnoreCase(result, EntryKey(last, path, pathSeparator))
    ensures var final := result[EntryKey(last, path, pathSeparator) := last.value.text];
      forall i :: 0 <= i < |init + [last]| ==>
        EntryKey((init + [last])[i], path, pathSeparator) in final &&
        final[EntryKey((init + [last])[i], path, pathSeparator)] == (init + [last])[i].value.text
  {
    var entries := init + [last];
    var final := result[EntryKey(last, path, pathSeparator) := last.value.text];
    forall i | 0 <= i < |entries|
      ensures EntryKey(entries[i], path, pathSeparator) in final &&
              final[EntryKey(entries[i], path, pathSeparator)] == entries[i].value.text
    {
      if i < |init| {
        assert entries[i] == init[i];
        assert EntryKey(init[i], path, pathSeparator) in result;
        assert EntryKey(init[i], path, pathSeparator) != EntryKey(last, path, pathSeparator) by {
          if EntryKey(init[i], path, pathSeparator) == EntryKey(last, path, pathSeparator) {
            EqualsIgnoreCaseIsEquivalence(EntryKey(last, path, pathSeparator), EntryKey(last, path, pathSeparator), EntryKey(last, path, pathSeparator));
            assert false;
          }
        }
      } else {
        assert entries[i] == last;
      }
    }
  }

  /** A fresh key extends the decoded dictionary by the new entry. */
  lemma FreshKeyExtends(result: map<string, string>, init: seq<Entry>, last: Entry, path: Option<string>, pathSeparator: char)
    requires Decoded(result, init, path, pathSeparator)
    requires last.value.TextValue?
    requires !ContainsKeyIgnoreCase(result, EntryKey(last, path, pathSeparator))
    ensures Decoded(result[EntryKey(last, path, pathSeparator) := last.value.text], init + [last], path, pathSeparator)
  {
    var entries := init + [last];
    assert AllText(entries) by {
      assert forall i :: 0 <= i < |init| ==> entries[i] == init[i];
      assert entries[|init|] == last;
    }
    FreshKeyKeepsDistinct(result, init, last, path, pathSeparator);
    FreshKeyKeepsKeys(result, init, last, path, pathSeparator);
    FreshKeyKeepsValues(result, init, last, path, pathSeparator);
  }

  /** One step of the fold keeps the invariant, and fails exactly when the
      new entry is not text or collides with an earlier key. */
  lemma AddEntryStep(result: map<string, string>, init: seq<Entry>, last: Entry, path: Option<string>, pathSeparator: char)
    requires Decoded(result, init, path, pathSeparator)
    ensures AddEntry(result, last, path, pathSeparator).Success? <==>
      AllText(init + [last]) && KeysDistinct(init + [last], path, pathSeparator)
    ensures AddEntry(result, last, path, pathSeparator).Success? ==>
      Decoded(AddEntry(result, last, path, pathSeparator).value, init + [last], path, pathSeparator)
  {
    if !last.value.TextValue? {
      assert (init + [last])[|init|] == last;
    } else if ContainsKeyIgnoreCase(result, EntryKey(last, path, pathSeparator)) {
      CollisionBreaksDistinctness(result, init, last, path, pathSeparator);
    } else {
      FreshKeyExtends(result, init, last, path, pathSeparator);
    }
  }

  /** Decoding succeeds exactly when every entry is text and no two
      transformed keys collide ignoring case; the dictionary then holds, for
      each entry, its text under its transformed key, and nothing else. */
  lemma {:induction false} DecodeEntriesCharacterised(entries: seq<Entry>, path: Option<string>, pathSeparator: char)
    ensures DecodeEntries(entries, path, pathSeparator).Success? <==>
      AllText(entries) && KeysDistinct(entries, path, pathSeparator)
    ensures DecodeEntries(entries, path, pathSeparator).Success? ==>
      Decoded(DecodeEntries(entries, path, pathSeparator).value, entries, path, pathSeparator)
    decreases |entries|
  {
    if entries == [] {
      assert KeySet(entries, path, pathSeparator) == {};
    } else {
      var n := |entries| - 1;
      var init := entries[..n];
      assert entries == init + [entries[n]];
      DecodeEntriesCharacterised(init, path, pathSeparator);
      match DecodeEntries(init, path, pathSeparator)
      case Failure(_) =>
        assert !(AllText(init) && KeysDistinct(init, path, pathSeparator));
        assert forall i, j :: 0 <= i < j < n ==> init[i] == entries[i] && init[j] == entries[j];
      case Success(result) =>
        AddEntryStep(result, init, entries[n], path, pathSeparator);
    }
  }

  /** Any binary or unknown entry makes the whole decoding fail. */
  lemma UnsupportedEntryFails(entries: seq<Entry>, i: nat, path: Option<string>, pathSeparator: char)
    requires i < |entries| && !entries[i].value.TextValue?
    ensures DecodeEntries(entries, path, pathSeparator).Failure?
    ensures DecodePayload(entries, path, pathSeparator).Failure?
  {
    DecodeEntriesCharacterised(entries, path, pathSeparator);
  }

  /** Two text entries whose keys differ only in case make the fetch fail. */
  lemma CaseCollisionFails(entries: seq<Entry>, i: nat, j: nat, path: Option<string>, pathSeparator: char)
    requires i < j < |entries|
    requires EqualsIgnoreCase(EntryKey(entries[i], path, pathSeparator), EntryKey(entries[j], path, pathSeparator))
    ensures DecodePayload(entries, path, pathSeparator).Failure?
  {
    DecodeEntriesCharacterised(entries, path, pathSeparator);
  }

  lemma TransformKeyWhenStripped(key: string, path: Option<string>, pathSeparator: char)
    requires StripsPrefix(key, path)
    ensures TransformKey(key, path, pathSeparator) ==
      Replace(TrimStart(key[|path.value|..], pathSeparator), pathSeparator, ConfigurationKeyDelimiter)
  {
  }

  lemma TransformKeyWhenKept(key: string, path: Option<string>, pathSeparator: char)
    requires !StripsPrefix(key, path)
    ensures TransformKey(key, path, pathSeparator) == Replace(key, pathSeparator, ConfigurationKeyDelimiter)
  {
  }

  /** A key that literally starts with a non-empty Path has it stripped. */
  lemma StripsLiteralPrefix(key: string, path: string)
    requires path != "" && |path| <= |key| && key[..|path|] == path
    ensures StripsPrefix(key, Some(path))
  {
    EqualsIgnoreCaseIsEquivalence(path, path, path);
  }

  lemma TrimsSubKey()
    ensures TrimStart("prefix-sub-key"[6..], '-') == "sub-key"
  {
    assert "prefix-sub-key"[6..] == "-sub-key";
    assert "-sub-key"[1..] == "sub-key";
    assert TrimStart("sub-key", '-') == "sub-key";
  }

  lemma TranslatesSubKey()
    ensures Replace("sub-key", '-', ':') == "sub:key"
  {
    var r := Replace("sub-key", '-', ':');
    assert forall i :: 0 <= i < 7 ==> r[i] == "sub:key"[i];
  }

  /** With Path "prefix" and separator '-', "prefix-sub-key" becomes "sub:key". */
  lemma TransformKeyStripsPrefix()
    ensures TransformKey("prefix-sub-key", Some("prefix"), '-') == "sub:key"
  {
    assert "prefix-sub-key"[..6] == "prefix";
    StripsLiteralPrefix("prefix-sub-key", "prefix");
    TrimsSubKey();
    TranslatesSubKey();
    TransformKeyWhenStripped("prefix-sub-key", Some("prefix"), '-');
  }

  /** Prefix matching ignores case: paths that differ only in case
      transform every key alike. */
  lemma TransformKeyIgnoresPrefixCase(key: string, path: string, otherPath: string, pathSeparator: char)
    requires EqualsIgnoreCase(path, otherPath)
    ensures TransformKey(key, Some(path), pathSeparator) == TransformKey(key, Some(otherPath), pathSeparator)
  {
  }

  lemma OtherKeyNotStripped()
    ensures !StripsPrefix("other-key", Some("prefix"))
  {
    assert UpperChar("other-key"[..6][0]) == 'O' && UpperChar("prefix"[0]) == 'P';
  }

  lemma TranslatesOtherKey()
    ensures Replace("other-key", '-', ':') == "other:key"
  {
  }

  lemma TranslatesUnprefixedKey()
    ensures Replace("a-b", '-', ':') == "a:b"
  {
    var r := Replace("a-b", '-', ':');
    assert forall i :: 0 <= i < 3 ==> r[i] == "a:b"[i];
  }

  /** The prefix is not a filter: other keys are kept, separators translated. */
  lemma TransformKeyKeepsOtherKeys()
    ensures TransformKey("other-key", Some("prefix"), '-') == "other:key"
    ensures TransformKey("a-b", None, '-') == "a:b"
  {
    OtherKeyNotStripped();
    TranslatesOtherKey();
    TransformKeyWhenKept("other-key", Some("prefix"), '-');
    TranslatesUnprefixedKey();
    TransformKeyWhenKept("a-b", None, '-');
  }

  lemma TranslatesSuffix()
    ensures TrimStart("prefixes-a"[6..], '-') == "es-a"
    ensures Replace("es-a", '-', ':') == "es:a"
  {
    assert "prefixes-a"[6..] == "es-a";
    var r := Replace("es-a", '-', ':');
    assert forall i :: 0 <= i < 4 ==> r[i] == "es:a"[i];
  }

  /** The prefix is matched as text, not as a whole path segment. */
  lemma TransformKeyMatchesPrefixAsText()
    ensures TransformKey("prefixes-a", Some("prefix"), '-') == "es:a"
  {
    assert "prefixes-a"[..6] == "prefix";
    StripsLiteralPrefix("prefixes-a", "prefix");
    TranslatesSuffix();
    TransformKeyWhenStripped("prefixes-a", Some("prefix"), '-');
  }
}
