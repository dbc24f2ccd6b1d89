/** What loading and lookup in config/__init__.py guarantee, stated over the model in module Config. */
module ConfigProperties {
  import opened Values
  import opened IntCoercion
  import opened Attributes
  import opened Paths
  import opened Config

  // ---- Section loads (config/__init__.py:65-70) ----

  /** Every key of the section ends up stored; the last pair with that key decides
      its value, which is the integer reading of the string when `int()` accepts
      it and the string itself otherwise. */
  lemma SectionLoadStoresLastValue(d: Dict, doc: IniDocument, section: string, items: seq<(string, string)>, i: nat)
    requires SectionItems(doc, section) == Ok(items)
    requires i < |items|
    requires forall j :: i < j < |items| ==> items[j].0 != items[i].0
    ensures ConfigparserLoad(d, Ok(doc), section).outcome == Pass
    ensures items[i].0 in ConfigparserLoad(d, Ok(doc), section).dict
    ensures ParseInt(items[i].1).Some? ==>
      ConfigparserLoad(d, Ok(doc), section).dict[items[i].0] == Int(ParseInt(items[i].1).value)
    ensures ParseInt(items[i].1).None? ==>
      ConfigparserLoad(d, Ok(doc), section).dict[items[i].0] == Str(items[i].1)
  {
    var pairs := SectionPairs(items);
    forall j | i < j < |pairs| ensures pairs[j].0 != pairs[i].0 {
      assert pairs[j].0 == items[j].0;
    }
    AssignLastWins(d, pairs, i);
  }

  /** Loading merges: a key the loaded section does not carry keeps its value, or
      stays absent; a parse error or a missing section raises before anything is set. */
  lemma SectionLoadMerges(d: Dict, ini: Result<IniDocument>, section: string, k: string)
    requires ini.Ok? && SectionItems(ini.value, section).Ok? ==>
      forall j :: 0 <= j < |SectionItems(ini.value, section).value| ==> SectionItems(ini.value, section).value[j].0 != k
    ensures k in ConfigparserLoad(d, ini, section).dict <==> k in d
    ensures k in d ==> ConfigparserLoad(d, ini, section).dict[k] == d[k]
  {
    if ini.Ok? && SectionItems(ini.value, section).Ok? {
      var items := SectionItems(ini.value, section).value;
      var pairs := SectionPairs(items);
      forall j | 0 <= j < |pairs| ensures pairs[j].0 != k {
        assert pairs[j].0 == items[j].0;
      }
      AssignKeepsOthers(d, pairs, k);
    }
  }

  /** `append` after a load is one load of both sections, the second one last:
      on a shared key the later file wins. */
  lemma AppendIsLayered(d: Dict, doc1: IniDocument, s1: string, doc2: IniDocument, s2: string,
                        items1: seq<(string, string)>, items2: seq<(string, string)>)
    requires SectionItems(doc1, s1) == Ok(items1) && SectionItems(doc2, s2) == Ok(items2)
    ensures ConfigparserLoad(ConfigparserLoad(d, Ok(doc1), s1).dict, Ok(doc2), s2).dict
         == Assign(d, SectionPairs(items1) + SectionPairs(items2))
  {
    AssignConcat(d, SectionPairs(items1), SectionPairs(items2));
  }

  // ---- JSON loads (config/__init__.py:82-92) ----

  /** A JSON load raises exactly when some key is integer-looking, and then with TypeError. */
  lemma JsonLoadRaisesIff(d: Dict, items: JsonObject)
    ensures JsonLoad(d, Ok(items)).outcome == Pass || JsonLoad(d, Ok(items)).outcome == Fail(TypeError)
    ensures JsonLoad(d, Ok(items)).outcome == Fail(TypeError) <==> exists i :: 0 <= i < |items| && IsIntName(items[i].0)
  {
    var n := FirstIntName(items);
    if n < |items| {
      assert IntNames(items)[n];
    }
    if exists i :: 0 <= i < |items| && IsIntName(items[i].0) {
      var i :| 0 <= i < |items| && IsIntName(items[i].0);
      assert IntNames(items)[i];
    }
  }

  /** The pairs before the first integer-looking key are stored, coerced, and none after it. */
  lemma JsonLoadStopsAtIntName(d: Dict, items: JsonObject, n: nat)
    requires n < |items| && IsIntName(items[n].0)
    requires forall j :: 0 <= j < n ==> !IsIntName(items[j].0)
    ensures JsonLoad(d, Ok(items)) == Loaded(Assign(d, JsonPairs(items[..n])), Fail(TypeError))
  {
    var flags := IntNames(items);
    assert flags[n];
    forall j | 0 <= j < n ensures !flags[j] {
      assert flags[j] == IsIntName(items[j].0);
    }
    assert FirstIntName(items) == n;
    assert JsonPairs(items)[..n] == JsonPairs(items[..n]);
  }

  /** With no integer-looking key, every key is stored with its last value after
      coercion: a boolean becomes 1 or 0, an integer-looking string its integer,
      and null, arrays, objects and other strings stay as they are. */
  lemma JsonLoadStoresLastValue(d: Dict, items: JsonObject, i: nat)
    requires forall j :: 0 <= j < |items| ==> !IsIntName(items[j].0)
    requires i < |items|
    requires forall j :: i < j < |items| ==> items[j].0 != items[i].0
    ensures JsonLoad(d, Ok(items)).outcome == Pass
    ensures items[i].0 in JsonLoad(d, Ok(items)).dict
    ensures var stored := JsonLoad(d, Ok(items)).dict[items[i].0];
      match items[i].1
      case Bool(b) => stored == Int(if b then 1 else 0)
      case Str(s) => stored == (if ParseInt(s).Some? then Int(ParseInt(s).value) else Str(s))
      case Int(n) => stored == Int(n)
      case Null => stored == Null
      case Other(nonEmpty) => stored == Other(nonEmpty)
  {
    var flags := IntNames(items);
    forall j | 0 <= j < |items| ensures !flags[j] {
      assert flags[j] == IsIntName(items[j].0);
    }
    assert FirstIntName(items) == |items|;
    var pairs := JsonPairs(items);
    assert pairs[..|items|] == pairs;
    forall j | i < j < |pairs| ensures pairs[j].0 != pairs[i].0 {
      assert pairs[j].0 == items[j].0;
    }
    AssignLastWins(d, pairs, i);
  }

  /** A JSON load merges too: a key it does not set keeps its value, or stays absent. */
  lemma JsonLoadMerges(d: Dict, json: Result<JsonObject>, k: string)
    requires json.Ok? ==> forall j :: 0 <= j < |json.value| ==> json.value[j].0 != k
    ensures k in JsonLoad(d, json).dict <==> k in d
    ensures k in d ==> JsonLoad(d, json).dict[k] == d[k]
  {
    if json.Ok? {
      var items := json.value;
      var pairs := JsonPairs(items)[..FirstIntName(items)];
      forall j | 0 <= j < |pairs| ensures pairs[j].0 != k {
        assert pairs[j] == JsonPairs(items)[j];
      }
      AssignKeepsOthers(d, pairs, k);
    }
  }

  // ---- Lookups (config/__init__.py:49-52, :117-119) ----

  /** When every stored key is lower-case, as configparser leaves them, a lookup
      through `LocalConfig` ignores the case of the name asked for. */
  lemma LocalLookupIgnoresCase(c: LocalConfig, a: string, b: string)
    requires forall k :: k in c.attrs.dict ==> Lower(k) == k
    requires Lower(a) == Lower(b)
    ensures c.GetAttr(a) == c.GetAttr(b)
  {
  }

  /** A key stored with upper-case letters, as a JSON load may leave it, is found
      only under its exact name: neither `LocalConfig` nor `get` finds it by its
      lower-case form. */
  lemma MixedCaseKeyOnlyExact(c: LocalConfig, store: Namespace, k: string, default: Value)
    requires store.dict == c.attrs.dict
    requires k in c.attrs.dict && Lower(k) != k && Lower(k) !in c.attrs.dict
    ensures c.GetAttr(k) == c.attrs.dict[k]
    ensures c.GetAttr(Lower(k)) == Null
    ensures Get(store, Lower(k), default) == default
  {
    LowerIdempotent(k);
  }

  /** Module `get` does no case folding, where `LocalConfig` falls back to the lower-cased name. */
  lemma GetDoesNotFoldCase(c: LocalConfig, store: Namespace, name: string, default: Value)
    requires store.dict == c.attrs.dict
    requires name !in store.dict && Lower(name) in store.dict
    ensures Get(store, name, default) == default
    ensures c.GetAttr(name) == store.dict[Lower(name)]
  {
  }

  // ---- get_boolean (config/__init__.py:39-47, :106-115) ----

  /** The truthy tokens are recognised in any case; for instance "YES", "On" and
      "TRUE" give True, while "no", "" and "2" give False. */
  lemma AsBooleanIgnoresCase(s: string)
    ensures AsBoolean(Str(s)) == AsBoolean(Str(Lower(s)))
    ensures AsBoolean(Str("YES")) == Ok(true) && AsBoolean(Str("On")) == Ok(true)
    ensures AsBoolean(Str("TRUE")) == Ok(true)
    ensures AsBoolean(Str("no")) == Ok(false) && AsBoolean(Str("")) == Ok(false)
    ensures AsBoolean(Str("2")) == Ok(false)
  {
    LowerIdempotent(s);
    assert Lower("YES") == "yes";
    assert Lower("On") == "on";
    assert Lower("TRUE") == "true";
    assert Lower("no") == "no";
    assert Lower("2") == "2";
  }

  /** A section value "1" is stored as the integer 1, so `get_boolean` on it
      raises AttributeError instead of returning True. */
  lemma SectionOneBreaksGetBoolean(c: LocalConfig, d: Dict, doc: IniDocument, section: string,
                                   items: seq<(string, string)>, i: nat)
    requires SectionItems(doc, section) == Ok(items)
    requires i < |items| && items[i].1 == "1"
    requires forall j :: i < j < |items| ==> items[j].0 != items[i].0
    requires c.attrs.dict == ConfigparserLoad(d, Ok(doc), section).dict
    ensures c.GetAttr(items[i].0) == Int(1)
    ensures c.GetBoolean(items[i].0) == Err(AttributeError)
  {
    ParseIntAcceptsExamples();
    SectionLoadStoresLastValue(d, doc, section, items, i);
  }

  /** A JSON `true` is stored as the integer 1, so module `get_boolean` on it raises
      AttributeError; a JSON `false` becomes 0 and reads as False. */
  lemma JsonBooleanGetBoolean(store: Namespace, d: Dict, items: JsonObject, i: nat)
    requires forall j :: 0 <= j < |items| ==> !IsIntName(items[j].0)
    requires i < |items| && items[i].1.Bool?
    requires forall j :: i < j < |items| ==> items[j].0 != items[i].0
    requires store.dict == JsonLoad(d, Ok(items)).dict
    ensures GetBoolean(store, items[i].0) == if items[i].1.b then Err(AttributeError) else Ok(false)
  {
    JsonLoadStoresLastValue(d, items, i);
  }

  /** A missing name: `LocalConfig.get_boolean` gives False, module `get_boolean` raises. */
  lemma GetBooleanOnMissingName(c: LocalConfig, store: Namespace, name: string)
    requires store.dict == c.attrs.dict
    requires name !in store.dict && Lower(name) !in store.dict
    ensures c.GetBoolean(name) == Ok(false)
    ensures GetBoolean(store, name) == Err(AttributeError)
  {
  }

  // ---- init (config/__init__.py:94-104) ----

  /** The example file "app.conf" with `[DEFAULT]`, `timeout = 30`, `host = localhost`. */
  function AppConf(): ConfigFile {
    ConfigFile("app.conf", Ok(map["DEFAULT" := [("timeout", "30"), ("host", "localhost")]]), Err(ReadError))
  }

  /** `init("app.conf")` as written raises NameError and loads nothing; with the
      configparser loader it stores timeout as the integer 30 and host as a string. */
  lemma InitAppConf(d: Dict)
    ensures InitAsWritten(d, AppConf(), "DEFAULT") == Loaded(d, Fail(NameError))
    ensures InitLoad(map[], AppConf(), "DEFAULT") == Loaded(map["timeout" := Int(30), "host" := Str("localhost")], Pass)
  {
    var f := AppConf();
    assert !IsJsonPath(f.path) by {
      JsonNameIff(f.path);
      assert f.path[|f.path| - 5..] == ".conf";
    }
    assert CoerceString("30") == Int(30) by {
      assert NatToDecimal(30) == "30";
      ParseIntRoundTrip("", 30, "");
      assert "" + IntToDecimal(30) + "" == "30";
    }
    assert CoerceString("localhost") == Str("localhost") by {
      ParseIntRejectsForeign("localhost", 0);
    }
    var items := [("timeout", "30"), ("host", "localhost")];
    var pairs := SectionPairs(items);
    assert pairs == [("timeout", Int(30)), ("host", Str("localhost"))];
    assert pairs[..1] == [("timeout", Int(30))];
  }

  /** As written, every path whose suffix is not ".json" makes `init` raise NameError,
      leaving the store as it was. */
  lemma InitAsWrittenNonJson(d: Dict, file: ConfigFile, section: string)
    requires !IsJsonPath(file.path)
    ensures InitAsWritten(d, file, section) == Loaded(d, Fail(NameError))
    ensures InitLoad(d, file, section) == ConfigparserLoad(d, file.ini, section)
  {
  }

  /** "config.json", the file run.py loads, is read as JSON, also under a directory. */
  lemma JsonFileNames()
    ensures IsJsonPath("config.json")
    ensures IsJsonPath("/etc/app/config.json")
  {
    var name := "config.json";
    assert '/' !in name by {
      forall i | 0 <= i < |name| ensures name[i] != '/' {
      }
    }
    assert name[6..] == ".json";
    JsonNameIff(name);
    var path := "/etc/app" + "/" + name;
    assert path == "/etc/app/config.json" by {
      assert |path| == |"/etc/app/config.json"|;
      forall i | 0 <= i < |path| ensures path[i] == "/etc/app/config.json"[i] {
      }
    }
    JsonPathIff("/etc/app", name);
  }

  /** The suffix is compared case-sensitively, and ".json" alone is a hidden file without suffix. */
  lemma NonJsonFileNames()
    ensures !IsJsonPath("config.JSON") && !IsJsonPath(".json") && !IsJsonPath("config.json.bak")
  {
    assert !IsJsonPath("config.JSON") by {
      JsonNameIff("config.JSON");
      assert "config.JSON"[6..] == ".JSON";
    }
    assert !IsJsonPath(".json") by {
      JsonNameIff(".json");
    }
    assert !IsJsonPath("config.json.bak") by {
      JsonNameIff("config.json.bak");
      assert "config.json.bak"[10..] == "n.bak";
    }
  }

  // ---- Independent instances ----

  /** Two `LocalConfig` objects built from the same file share nothing: appending
      to the second leaves the first as it was loaded. */
  method IndependentInstances(file: ConfigFile, section: string, other: ConfigFile, otherSection: string)
    returns (first: Result<LocalConfig>, second: Result<LocalConfig>)
    ensures first.Ok? ==> first.value.attrs.dict == ConfigparserLoad(map[], file.ini, section).dict
    ensures second.Ok? ==>
      second.value.attrs.dict == ConfigparserLoad(ConfigparserLoad(map[], file.ini, section).dict, other.ini, otherSection).dict
  {
    first := LocalConfig.Create(file, section);
    second := LocalConfig.Create(file, section);
    if second.Ok? {
      var _ := second.value.Append(other, otherSection);
    }
  }
}
