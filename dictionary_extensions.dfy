/** Helpers over dictionaries. A C# dictionary is modelled as a `map`, and a
    dictionary reference that may be null as an `Option<map<..>>`. */
module DictionaryExtensions {
  import opened Wrappers

  /** `dictionary ?? new Dictionary<TK, TV>()`. */
  function OrEmpty<K, V>(dictionary: Option<map<K, V>>): map<K, V> {
    dictionary.GetOr(map[])
  }

  /** The key/value pairs of a dictionary, as enumerated by LINQ. */
  function Entries<K, V(==)>(m: map<K, V>): set<(K, V)> {
    set k | k in m :: (k, m[k])
  }

  /** Keys are unique within a dictionary, so its pairs determine it. */
  lemma {:induction false} EntriesDetermineMap<K, V>(a: map<K, V>, b: map<K, V>)
    ensures Entries(a) == Entries(b) <==> a == b
  {
    if Entries(a) == Entries(b) {
      forall k | k in a ensures k in b && b[k] == a[k] {
        assert (k, a[k]) in Entries(b);
      }
      forall k | k in b ensures k in a {
        assert (k, b[k]) in Entries(a);
      }
      assert a.Keys == b.Keys;
    }
  }

  /** dict.GetValue(key, defaultValue): the stored value when the key is
      present, otherwise the default; it never raises KeyNotFoundException. */
  function GetValue<K, V>(dict: map<K, V>, key: K, defaultValue: V): (r: V)
    ensures key in dict ==> r == dict[key]
    ensures key !in dict ==> r == defaultValue
  {
    if key in dict then dict[key] else defaultValue
  }

  /** dictionary.ContentEquals(otherDictionary): both sides, null read as
      empty, are ordered by key and compared pair by pair. Because keys are
      unique, two such ordered sequences are equal exactly when the two sets
      of pairs are, which is what the body compares. The result is true
      exactly when both sides hold the same pairs, whatever their order. */
  function ContentEquals<K, V(==)>(dictionary: Option<map<K, V>>, otherDictionary: Option<map<K, V>>): (r: bool)
    ensures r <==> OrEmpty(dictionary) == OrEmpty(otherDictionary)
  {
    EntriesDetermineMap(OrEmpty(otherDictionary), OrEmpty(dictionary));
    Entries(OrEmpty(otherDictionary)) == Entries(OrEmpty(dictionary))
  }

  /** ContentEquals is an equivalence, and null compares like an empty dictionary. */
  lemma ContentEqualsIsEquivalence<K, V>(a: Option<map<K, V>>, b: Option<map<K, V>>, c: Option<map<K, V>>)
    ensures ContentEquals(a, a)
    ensures ContentEquals(a, b) == ContentEquals(b, a)
    ensures ContentEquals(a, b) && ContentEquals(b, c) ==> ContentEquals(a, c)
    ensures ContentEquals(None, a) == ContentEquals(Some(map[]), a)
    ensures ContentEquals(a, None) == ContentEquals(a, Some(map[]))
  {
  }

  /** An extra key, a missing key or a different value makes ContentEquals false. */
  lemma ContentEqualsDetectsDifference<K, V>(a: map<K, V>, b: map<K, V>, k: K)
    ensures k in a && k !in b ==> !ContentEquals(Some(a), Some(b))
    ensures k !in a && k in b ==> !ContentEquals(Some(a), Some(b))
    ensures k in a && k in b && a[k] != b[k] ==> !ContentEquals(Some(a), Some(b))
  {
  }

  /** Readers cannot tell content-equal dictionaries apart. */
  lemma GetValueRespectsContentEquals<K, V>(a: map<K, V>, b: map<K, V>, key: K, defaultValue: V)
    requires ContentEquals(Some(a), Some(b))
    ensures GetValue(a, key, defaultValue) == GetValue(b, key, defaultValue)
  {
  }
}
