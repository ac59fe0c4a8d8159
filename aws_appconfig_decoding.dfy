/** What AwsAppConfigConfigurationProvider does with a configuration it has
    fetched: the JSON document is flattened into configuration keys
    (GetJsonAsConfiguration / GetLeaves), empty content gives an empty map
    (DeserializeDataAsync), and the stored configuration version decides
    whether a response is decoded at all (GetAllKeyValuePairsAsync). */
module AwsAppConfigDecoding {
  import opened Wrappers
  import opened Failures

  /** A parsed JSON element. Arrays and numbers keep their raw text, which is
      what JsonElement.ToString returns for them; the members of an object
      keep their document order. */
  datatype JsonValue =
    | JsonObject(properties: seq<JsonProperty>)
    | JsonArray(rawText: string)
    | JsonString(text: string)
    | JsonNumber(rawText: string)
    | JsonTrue
    | JsonFalse
    | JsonNull

  datatype JsonProperty = JsonProperty(name: string, value: JsonValue)

  /** ConfigurationPath.KeyDelimiter. */
  const KeyDelimiter: string := ":"

  /** JsonElement.ToString for a non-object element: a string's value,
      "True"/"False" for booleans, "" for null, the raw text otherwise. */
  function ElementText(v: JsonValue): (r: string)
    requires !v.JsonObject?
    ensures v.JsonString? ==> r == v.text
    ensures v.JsonArray? || v.JsonNumber? ==> r == v.rawText
    ensures v.JsonTrue? ==> r == "True"
    ensures v.JsonFalse? ==> r == "False"
    ensures v.JsonNull? ==> r == ""
  {
    match v
    case JsonArray(raw) => raw
    case JsonString(s) => s
    case JsonNumber(raw) => raw
    case JsonTrue => "True"
    case JsonFalse => "False"
    case JsonNull => ""
  }

  /** The path of a property named `name` under `path`; a null path is the
      document root. */
  function ChildPath(path: Option<string>, name: string): string {
    if path.None? then name else path.value + KeyDelimiter + name
  }

  /** GetLeaves: a non-object property is one leaf; an object property
      contributes the leaves of its members, under its own path. */
  function GetLeaves(path: Option<string>, p: JsonProperty): seq<(string, string)>
    decreases p
  {
    if p.value.JsonObject? then SelectLeaves(Some(ChildPath(path, p.name)), p.value.properties)
    else [(ChildPath(path, p.name), ElementText(p.value))]
  }

  /** SelectMany of GetLeaves over the members of an object, in order. */
  function SelectLeaves(path: Option<string>, props: seq<JsonProperty>): seq<(string, string)>
    decreases props
  {
    if props == [] then [] else GetLeaves(path, props[0]) + SelectLeaves(path, props[1..])
  }

  /** The configuration key of the member reached from `path` by the
      member names `names`, outermost first. */
  function JoinPath(path: Option<string>, names: seq<string>): (r: Option<string>)
    ensures path.Some? || names != [] ==> r.Some?
    decreases |names|
  {
    if names == [] then path else JoinPath(Some(ChildPath(path, names[0])), names[1..])
  }

  /** Reference definition of the flattening: following the member names
      `names` from the object with members `props` reaches a non-object
      element whose text is `text`. */
  ghost predicate LeafAt(props: seq<JsonProperty>, names: seq<string>, text: string)
    decreases props
  {
    && |names| > 0
    && exists i :: 0 <= i < |props| && props[i].name == names[0] &&
         if props[i].value.JsonObject? then LeafAt(props[i].value.properties, names[1..], text)
         else |names| == 1 && text == ElementText(props[i].value)
  }

  lemma {:induction false} GetLeavesInSelectLeaves(path: Option<string>, props: seq<JsonProperty>, i: nat, pair: (string, string))
    requires i < |props| && pair in GetLeaves(path, props[i])
    ensures pair in SelectLeaves(path, props)
    decreases i
  {
    if i > 0 {
      assert props[1..][i - 1] == props[i];
      GetLeavesInSelectLeaves(path, props[1..], i - 1, pair);
    }
  }

  /** Every leaf of the document is emitted under its joined path. */
  lemma {:induction false} SelectLeavesComplete(path: Option<string>, props: seq<JsonProperty>, names: seq<string>, text: string)
    requires LeafAt(props, names, text)
    ensures JoinPath(path, names).Some? && (JoinPath(path, names).value, text) in SelectLeaves(path, props)
    decreases props
  {
    var i :| 0 <= i < |props| && props[i].name == names[0] &&
         if props[i].value.JsonObject? then LeafAt(props[i].value.properties, names[1..], text)
         else |names| == 1 && text == ElementText(props[i].value);
    var p := props[i];
    var sub := Some(ChildPath(path, names[0]));
    if p.value.JsonObject? {
      SelectLeavesComplete(sub, p.value.properties, names[1..], text);
      assert JoinPath(path, names) == JoinPath(sub, names[1..]);
      assert (JoinPath(path, names).value, text) in GetLeaves(path, p);
    } else {
      assert names[1..] == [];
      assert JoinPath(path, names) == sub;
      assert GetLeaves(path, p) == [(sub.value, text)];
    }
    GetLeavesInSelectLeaves(path, props, i, (JoinPath(path, names).value, text));
  }

  lemma {:induction false} SelectLeavesMember(path: Option<string>, props: seq<JsonProperty>, pair: (string, string))
    requires pair in SelectLeaves(path, props)
    ensures exists i :: 0 <= i < |props| && pair in GetLeaves(path, props[i])
    decreases props
  {
    if pair !in GetLeaves(path, props[0]) {
      SelectLeavesMember(path, props[1..], pair);
      var j :| 0 <= j < |props[1..]| && pair in GetLeaves(path, props[1..][j]);
      assert props[1..][j] == props[j + 1];
    }
  }

  /** Nothing is emitted that is not a leaf of the document. */
  lemma {:induction false} SelectLeavesSound(path: Option<string>, props: seq<JsonProperty>, pair: (string, string))
    requires pair in SelectLeaves(path, props)
    ensures exists names :: LeafAt(props, names, pair.1) && JoinPath(path, names) == Some(pair.0)
    decreases props
  {
    SelectLeavesMember(path, props, pair);
    var i :| 0 <= i < |props| && pair in GetLeaves(path, props[i]);
    var p := props[i];
    var sub := Some(ChildPath(path, p.name));
    if p.value.JsonObject? {
      SelectLeavesSound(sub, p.value.properties, pair);
      var rest :| LeafAt(p.value.properties, rest, pair.1) && JoinPath(sub, rest) == Some(pair.0);
      var names := [p.name] + rest;
      assert names[1..] == rest;
      assert LeafAt(props, names, pair.1);
      assert JoinPath(path, names) == JoinPath(sub, rest);
    } else {
      var names := [p.name];
      assert names[1..] == [];
      assert LeafAt(props, names, pair.1);
      assert JoinPath(path, names) == Some(pair.0);
    }
  }

  /** No two pairs share a key. */
  ghost predicate DistinctKeys(pairs: seq<(string, string)>) {
    forall i, j :: 0 <= i < j < |pairs| ==> pairs[i].0 != pairs[j].0
  }

  /** `m` holds exactly the pairs of `pairs`. */
  ghost predicate Tabulates(m: map<string, string>, pairs: seq<(string, string)>) {
    && (forall i :: 0 <= i < |pairs| ==> pairs[i].0 in m && m[pairs[i].0] == pairs[i].1)
    && (forall k :: k in m ==> exists i :: 0 <= i < |pairs| && pairs[i].0 == k)
  }

  /** Enumerable.ToDictionary: the pairs added in order; a key already
      present raises ArgumentException. */
  function ToDictionary(pairs: seq<(string, string)>): Result<map<string, string>, Error>
    decreases |pairs|
  {
    if pairs == [] then Success(map[])
    else
      var init :- ToDictionary(pairs[..|pairs| - 1]);
      var last := pairs[|pairs| - 1];
      if last.0 in init then Failure(DuplicateKey(last.0)) else Success(init[last.0 := last.1])
  }

  lemma {:induction false} ToDictionaryFailurePersists(pairs: seq<(string, string)>, n: nat)
    requires n <= |pairs| && ToDictionary(pairs[..n]).Failure?
    ensures ToDictionary(pairs) == ToDictionary(pairs[..n])
    decreases |pairs| - n
  {
    if n < |pairs| {
      assert pairs[..n + 1][..n] == pairs[..n];
      ToDictionaryFailurePersists(pairs, n + 1);
      assert pairs[..|pairs|] == pairs;
    } else {
      assert pairs[..n] == pairs;
    }
  }

  lemma TabulatesExtend(m: map<string, string>, pairs: seq<(string, string)>, last: (string, string))
    requires Tabulates(m, pairs) && DistinctKeys(pairs) && last.0 !in m
    ensures Tabulates(m[last.0 := last.1], pairs + [last]) && DistinctKeys(pairs + [last])
  {
    var all := pairs + [last];
    var m' := m[last.0 := last.1];
    forall k | k in m' ensures exists i :: 0 <= i < |all| && all[i].0 == k {
      if k == last.0 {
        assert all[|pairs|].0 == k;
      } else {
        var i :| 0 <= i < |pairs| && pairs[i].0 == k;
        assert all[i].0 == k;
      }
    }
  }

  /** ToDictionary succeeds exactly when the keys are distinct, and then
      maps every key to its value and holds no other key. */
  lemma {:induction false} ToDictionaryCharacterised(pairs: seq<(string, string)>)
    ensures ToDictionary(pairs).Success? <==> DistinctKeys(pairs)
    ensures ToDictionary(pairs).Success? ==> Tabulates(ToDictionary(pairs).value, pairs)
    ensures ToDictionary(pairs).Failure? ==> ToDictionary(pairs).error.DuplicateKey?
    decreases |pairs|
  {
    if pairs != [] {
      var init := pairs[..|pairs| - 1];
      var last := pairs[|pairs| - 1];
      assert pairs == init + [last];
      ToDictionaryCharacterised(init);
      var prev := ToDictionary(init);
      if prev.Success? {
        if last.0 in prev.value {
          var i :| 0 <= i < |init| && init[i].0 == last.0;
          assert pairs[i].0 == pairs[|pairs| - 1].0;
        } else {
          TabulatesExtend(prev.value, init, last);
        }
      } else {
        assert !DistinctKeys(init);
        var i, j :| 0 <= i < j < |init| && init[i].0 == init[j].0;
        assert pairs[i].0 == pairs[j].0;
      }
    }
  }

  /** The InvalidOperationException of JsonElement.EnumerateObject on an
      element that is not an object. */
  const NotAnObject: Error := InvalidOperation("The requested operation requires an element of type 'Object'")

  /** GetJsonAsConfiguration on the parsed document. */
  function GetJsonAsConfiguration(root: JsonValue): Result<map<string, string>, Error> {
    if root.JsonObject? then ToDictionary(SelectLeaves(None, root.properties)) else Failure(NotAnObject)
  }

  /** Every leaf of the document is a key of a map tabulating its flattening. */
  lemma FlattenedComplete(props: seq<JsonProperty>, m: map<string, string>)
    requires Tabulates(m, SelectLeaves(None, props))
    ensures forall names, text :: LeafAt(props, names, text) ==>
      JoinPath(None, names).Some? && JoinPath(None, names).value in m && m[JoinPath(None, names).value] == text
  {
    var pairs := SelectLeaves(None, props);
    forall names, text | LeafAt(props, names, text)
      ensures JoinPath(None, names).Some? && JoinPath(None, names).value in m && m[JoinPath(None, names).value] == text
    {
      SelectLeavesComplete(None, props, names, text);
      var i :| 0 <= i < |pairs| && pairs[i] == (JoinPath(None, names).value, text);
    }
  }

  /** `key` is the joined path of some leaf of the document whose text is `text`. */
  ghost predicate NamesLeaf(props: seq<JsonProperty>, key: string, text: string) {
    exists names :: LeafAt(props, names, text) && JoinPath(None, names) == Some(key)
  }

  /** Every key of a map tabulating the flattening names a leaf. */
  lemma FlattenedSound(props: seq<JsonProperty>, m: map<string, string>)
    requires Tabulates(m, SelectLeaves(None, props))
    ensures forall k :: k in m ==> NamesLeaf(props, k, m[k])
  {
    var pairs := SelectLeaves(None, props);
    forall k | k in m
      ensures NamesLeaf(props, k, m[k])
    {
      var i :| 0 <= i < |pairs| && pairs[i].0 == k;
      assert pairs[i] in pairs && m[k] == pairs[i].1;
      SelectLeavesSound(None, props, pairs[i]);
      var names :| LeafAt(props, names, pairs[i].1) && JoinPath(None, names) == Some(pairs[i].0);
      assert LeafAt(props, names, m[k]);
    }
  }

  /** The flattened configuration holds exactly the leaves of the document,
      each under the names leading to it joined by ":"; it fails when the
      root is not an object or two leaves flatten to the same key. */
  lemma GetJsonAsConfigurationCharacterised(root: JsonValue)
    ensures var r := GetJsonAsConfiguration(root);
      && (r.Success? <==> root.JsonObject? && DistinctKeys(SelectLeaves(None, root.properties)))
      && (!root.JsonObject? ==> r == Failure(NotAnObject))
      && (r.Success? ==> forall names, text :: LeafAt(root.properties, names, text) ==>
            JoinPath(None, names).Some? && JoinPath(None, names).value in r.value &&
            r.value[JoinPath(None, names).value] == text)
      && (r.Success? ==> forall k :: k in r.value ==> NamesLeaf(root.properties, k, r.value[k]))
  {
    if root.JsonObject? {
      var pairs := SelectLeaves(None, root.properties);
      ToDictionaryCharacterised(pairs);
      var r := ToDictionary(pairs);
      if r.Success? {
        FlattenedComplete(root.properties, r.value);
        FlattenedSound(root.properties, r.value);
      }
    }
  }

  /** DeserializeDataAsync: empty content is an empty configuration; other
      content is parsed (`parse` stands for JsonDocument.Parse, None for a
      JsonException) and flattened. */
  function DeserializeData(json: string, parse: string -> Option<JsonValue>): (r: Result<map<string, string>, Error>)
    ensures json == "" ==> r == Success(map[])
    ensures json != "" && parse(json).None? ==> r == Failure(MalformedJson)
    ensures json != "" && parse(json).Some? ==> r == GetJsonAsConfiguration(parse(json).value)
  {
    if json == "" then Success(map[])
    else match parse(json)
      case None => Failure(MalformedJson)
      case Some(root) => GetJsonAsConfiguration(root)
  }

  /** What GetConfigurationAsync returns: the version of the configuration
      the service holds (possibly null) and its content as text. */
  datatype ConfigurationResponse = ConfigurationResponse(configurationVersion: Option<string>, content: string)

  /** The version a provider holds before its first successful load. */
  const InitialVersion: Option<string> := Some("0")

  /** GetAllKeyValuePairsAsync once the response has arrived: the decoded
      configuration (None when the version is unchanged) and the version
      held afterwards. */
  function FetchStep(version: Option<string>, response: ConfigurationResponse, parse: string -> Option<JsonValue>): (Result<Option<map<string, string>>, Error>, Option<string>) {
    if version == response.configurationVersion then (Success(None), version)
    else
      match DeserializeData(response.content, parse)
      case Failure(e) => (Failure(e), version)
      case Success(m) => (Success(Some(m)), response.configurationVersion)
  }

  /** The stored version moves to the response's version exactly when a
      configuration is decoded, and nothing is decoded for a response
      carrying the stored version. */
  lemma FetchStepVersion(version: Option<string>, response: ConfigurationResponse, parse: string -> Option<JsonValue>)
    ensures var (r, v) := FetchStep(version, response, parse);
      && (r.Success? && r.value.Some? ==> v == response.configurationVersion && r.value.value == DeserializeData(response.content, parse).value)
      && (r.Failure? || r.value.None? ==> v == version)
      && (version == response.configurationVersion <==> r == Success(None))
      && (r.Failure? <==> version != response.configurationVersion && DeserializeData(response.content, parse).Failure?)
  {
  }

  /** Handling the same response twice decodes it at most once. */
  lemma FetchStepIdempotent(version: Option<string>, response: ConfigurationResponse, parse: string -> Option<JsonValue>)
    ensures var (r, v) := FetchStep(version, response, parse);
      r.Success? ==> FetchStep(v, response, parse) == (Success(None), v)
  {
  }

  /** {"a":{"b":"1"},"c":"2"} flattens to {"a:b":"1","c":"2"}. */
  lemma NestedObjectExample()
    ensures GetJsonAsConfiguration(JsonObject([
      JsonProperty("a", JsonObject([JsonProperty("b", JsonString("1"))])),
      JsonProperty("c", JsonString("2"))])) == Success(map["a:b" := "1", "c" := "2"])
  {
    var inner := [JsonProperty("b", JsonString("1"))];
    var props := [JsonProperty("a", JsonObject(inner)), JsonProperty("c", JsonString("2"))];
    assert ChildPath(Some("a"), "b") == "a:b";
    assert inner[1..] == [];
    assert SelectLeaves(Some("a"), inner) == [("a:b", "1")];
    assert GetLeaves(None, props[0]) == [("a:b", "1")];
    assert GetLeaves(None, props[1]) == [("c", "2")];
    assert props[1..][0] == props[1] && props[1..][1..] == [];
    assert SelectLeaves(None, props[1..]) == [("c", "2")];
    var pairs := [("a:b", "1"), ("c", "2")];
    assert SelectLeaves(None, props) == pairs;
    assert pairs[..1] == [("a:b", "1")];
    assert pairs[..1][..0] == [];
    assert ToDictionary(pairs[..1]) == Success(map["a:b" := "1"]);
    assert "c" !in map["a:b" := "1"];
  }

  /** A literal "a:b" key beside {"a":{"b":…}} makes the fetch fail. */
  lemma FlattenedKeyCollisionExample()
    ensures GetJsonAsConfiguration(JsonObject([
      JsonProperty("a:b", JsonString("x")),
      JsonProperty("a", JsonObject([JsonProperty("b", JsonString("y"))]))])).Failure?
  {
    var props := [JsonProperty("a:b", JsonString("x")), JsonProperty("a", JsonObject([JsonProperty("b", JsonString("y"))]))];
    assert ChildPath(Some("a"), "b") == "a:b";
    assert props[1..][1..] == [];
    var pairs := SelectLeaves(None, props);
    assert pairs == [("a:b", "x"), ("a:b", "y")];
    ToDictionaryCharacterised(pairs);
  }

  /** An empty nested object contributes no keys; every scalar kind is a leaf. */
  lemma LeafKinds(path: Option<string>, name: string, v: JsonValue)
    ensures v == JsonObject([]) ==> GetLeaves(path, JsonProperty(name, v)) == []
    ensures !v.JsonObject? ==> GetLeaves(path, JsonProperty(name, v)) == [(ChildPath(path, name), ElementText(v))]
  {
  }
}
