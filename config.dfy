/** config/__init__.py: loaders that fold parsed key/value pairs into a
    target object with `setattr`, the `LocalConfig` class, and the module-level
    `init`, `get` and `get_boolean` over the process-wide store (the module
    object itself, here an ordinary `Namespace`). */
module Config {
  import opened Values
  import opened IntCoercion
  import opened Attributes
  import opened Paths

  /** What configparser makes of a file: each section's `items()` in order,
      keys already lower-cased and DEFAULT values already inherited. */
  type IniDocument = map<string, seq<(string, string)>>

  /** What `json.load` makes of a file holding one flat object: its `items()` in order. */
  type JsonObject = seq<(string, Value)>

  /** A configuration file: its path and what each parser makes of its text.
      `ini` is an error only when configparser rejects the text; a file that
      cannot be opened is silently skipped by `ConfigParser.read`, which leaves
      an empty document. `json` is an error when the file cannot be opened or
      does not hold JSON (ReadError), or when its top level is not an object,
      whose missing `items()` raises AttributeError at config/__init__.py:82. */
  datatype ConfigFile = ConfigFile(path: string, ini: Result<IniDocument>, json: Result<JsonObject>)

  /** The target's attributes after a load, and whether the load raised. */
  datatype Loaded = Loaded(dict: Dict, outcome: Outcome)

  /** `_config[section].items()`: DEFAULT always exists, any other missing section raises KeyError. */
  function SectionItems(doc: IniDocument, section: string): (r: Result<seq<(string, string)>>)
    ensures r.Ok? <==> section in doc || section == "DEFAULT"
    ensures section in doc ==> r == Ok(doc[section])
    ensures section !in doc && section == "DEFAULT" ==> r == Ok([])
    ensures r.Err? ==> r.error == KeyError
  {
    if section in doc then Ok(doc[section])
    else if section == "DEFAULT" then Ok([])
    else Err(KeyError)
  }

  /** The `setattr` calls of a section load: each value after `int()` coercion. */
  function SectionPairs(items: seq<(string, string)>): seq<Pair> {
    seq(|items|, i requires 0 <= i < |items| => (items[i].0, CoerceString(items[i].1)))
  }

  /** The `setattr` calls of a JSON load, were every key a valid name. */
  function JsonPairs(items: JsonObject): seq<Pair> {
    seq(|items|, i requires 0 <= i < |items| => (items[i].0, CoerceJson(items[i].1)))
  }

  /** A JSON key that `int()` accepts, which turns it into an int attribute name. */
  predicate IsIntName(k: string) {
    ParseInt(k).Some?
  }

  /** For each JSON key, whether `int()` accepts it. */
  function IntNames(items: JsonObject): seq<bool> {
    seq(|items|, i requires 0 <= i < |items| => IsIntName(items[i].0))
  }

  /** The position of the first true flag, or |flags| when there is none. */
  function FirstTrue(flags: seq<bool>): (n: nat)
    ensures n <= |flags|
    ensures forall j :: 0 <= j < n ==> !flags[j]
    ensures n < |flags| ==> flags[n]
  {
    if flags == [] then 0
    else if flags[0] then 0
    else 1 + FirstTrue(flags[1..])
  }

  /** The position of the first JSON key that `int()` accepts, or |items| when there is none. */
  function FirstIntName(items: JsonObject): nat {
    FirstTrue(IntNames(items))
  }

  /** What `_build_attributes_configparser` does to a target whose attributes are `d`. */
  function ConfigparserLoad(d: Dict, ini: Result<IniDocument>, section: string): (r: Loaded)
    ensures d.Keys <= r.dict.Keys
    ensures r.outcome == Pass <==> ini.Ok? && SectionItems(ini.value, section).Ok?
    ensures r.outcome.Fail? ==> r.dict == d
  {
    match ini
    case Err(e) => Loaded(d, Fail(e))
    case Ok(doc) =>
      match SectionItems(doc, section)
      case Err(e) => Loaded(d, Fail(e))
      case Ok(items) => Loaded(Assign(d, SectionPairs(items)), Pass)
  }

  /** What `_build_attributes_json` does to a target whose attributes are `d`:
      the pairs before the first integer-looking key are set, then
      `setattr` raises TypeError. */
  function JsonLoad(d: Dict, json: Result<JsonObject>): (r: Loaded)
    ensures d.Keys <= r.dict.Keys
    ensures json.Err? ==> r == Loaded(d, Fail(json.error))
    ensures json.Ok? ==> r.outcome == Pass || r.outcome == Fail(TypeError)
  {
    match json
    case Err(e) => Loaded(d, Fail(e))
    case Ok(items) =>
      var n := FirstIntName(items);
      Loaded(Assign(d, JsonPairs(items)[..n]), if n < |items| then Fail(TypeError) else Pass)
  }

  /** `_build_attributes_configparser(config_file, section, target)`. */
  method BuildAttributesConfigparser(file: ConfigFile, section: string, target: Namespace)
    returns (outcome: Outcome)
    modifies target
    ensures Loaded(target.dict, outcome) == ConfigparserLoad(old(target.dict), file.ini, section)
  {
    var items: seq<(string, string)>;
    match file.ini {
      case Err(e) => return Fail(e);
      case Ok(doc) =>
        match SectionItems(doc, section) {
          case Err(e) => return Fail(e);
          case Ok(sectionItems) => items := sectionItems;
        }
    }
    ghost var d0 := target.dict;
    for i := 0 to |items|
      invariant target.dict == Assign(d0, SectionPairs(items)[..i])
    {
      var (k, v) := items[i];
      var coerced := CoerceString(v);
      assert SectionPairs(items)[..i + 1][..i] == SectionPairs(items)[..i];
      target.dict := target.dict[k := coerced];
    }
    assert SectionPairs(items)[..|items|] == SectionPairs(items);
    return Pass;
  }

  /** `_build_attributes_json(config_file, target)`. */
  method BuildAttributesJson(file: ConfigFile, target: Namespace) returns (outcome: Outcome)
    modifies target
    ensures Loaded(target.dict, outcome) == JsonLoad(old(target.dict), file.json)
  {
    var items: JsonObject;
    match file.json {
      case Err(e) => return Fail(e);
      case Ok(obj) => items := obj;
    }
    ghost var d0 := target.dict;
    var i := 0;
    while i < |items|
      invariant i <= |items|
      invariant forall j :: 0 <= j < i ==> !IntNames(items)[j]
      invariant target.dict == Assign(d0, JsonPairs(items)[..i])
    {
      var (k, v) := items[i];
      if IsIntName(k) {
        // `k = int(k)` succeeded, and setattr refuses a name that is not a str
        assert IntNames(items)[i];
        assert FirstIntName(items) == i;
        return Fail(TypeError);
      }
      var coerced := CoerceJson(v);
      assert JsonPairs(items)[i] == (k, coerced);
      assert JsonPairs(items)[..i + 1][..i] == JsonPairs(items)[..i];
      target.dict := target.dict[k := coerced];
      i := i + 1;
    }
    assert FirstIntName(items) == |items|;
    return Pass;
  }

  /** The tokens `get_boolean` reads as true, after lower-casing. */
  const TruthyTokens: seq<string> := ["yes", "true", "on", "1"]

  /** The body shared by both `get_boolean` variants, for an attribute already looked up:
      a bool is returned as it is; a falsy value gives False; a non-empty string
      gives whether it is a truthy token in any case; any other truthy value has
      no `lower()` and raises AttributeError. */
  function AsBoolean(attribute: Value): (r: Result<bool>)
    ensures r == Ok(true) <==> attribute == Bool(true) || (attribute.Str? && Lower(attribute.s) in TruthyTokens)
    ensures r.Err? <==> (attribute.Int? && attribute.i != 0) || attribute == Other(true)
    ensures r.Err? ==> r.error == AttributeError
  {
    if attribute.Bool? then Ok(attribute.b)
    else if Truthy(attribute) then
      match attribute
      case Str(s) => Ok(Lower(s) in TruthyTokens)
      case _ => Err(AttributeError)
    else Ok(false)
  }

  /** An object created by `LocalConfig(config_file, section)`, independent of the module store. */
  class LocalConfig {
    /** The instance's own attributes, `self.__dict__`. */
    const attrs: Namespace

    /** A new instance before `__init__` has loaded anything. */
    constructor Blank()
      ensures fresh(attrs) && attrs.dict == map[]
    {
      attrs := new Namespace();
    }

    /** `LocalConfig(config_file, section)`: a new instance holding the section's
        pairs, or the exception its `__init__` raised. */
    static method Create(file: ConfigFile, section: string) returns (r: Result<LocalConfig>)
      ensures r.Ok? ==> fresh(r.value) && fresh(r.value.attrs)
      ensures var l := ConfigparserLoad(map[], file.ini, section);
        && (r.Ok? <==> l.outcome == Pass)
        && (r.Ok? ==> r.value.attrs.dict == l.dict)
        && (r.Err? ==> l.outcome == Fail(r.error))
    {
      var c := new LocalConfig.Blank();
      var outcome := BuildAttributesConfigparser(file, section, c.attrs);
      if outcome.Fail? {
        return Err(outcome.error);
      }
      return Ok(c);
    }

    /** `append(config_file, section)`: merges another section into this instance. */
    method Append(file: ConfigFile, section: string) returns (outcome: Outcome)
      modifies attrs
      ensures Loaded(attrs.dict, outcome) == ConfigparserLoad(old(attrs.dict), file.ini, section)
    {
      outcome := BuildAttributesConfigparser(file, section, attrs);
    }

    /** `self.item`: the attribute under exactly that name, else (through
        `__getattr__`) the one under its lower-cased form, else None. Never raises. */
    function GetAttr(item: string): (r: Value)
      reads attrs
      ensures item in attrs.dict ==> r == attrs.dict[item]
      ensures item !in attrs.dict && Lower(item) in attrs.dict ==> r == attrs.dict[Lower(item)]
      ensures r != Null ==> item in attrs.dict || Lower(item) in attrs.dict
    {
      if item in attrs.dict then attrs.dict[item]
      else if Lower(item) in attrs.dict then attrs.dict[Lower(item)]
      else Null
    }

    /** `self.get_boolean(value)`: a missing attribute reads as None and gives False. */
    function GetBoolean(value: string): (r: Result<bool>)
      reads attrs
      ensures value !in attrs.dict && Lower(value) !in attrs.dict ==> r == Ok(false)
      ensures r.Err? <==> (GetAttr(value).Int? && GetAttr(value).i != 0) || GetAttr(value) == Other(true)
      ensures r == Ok(true) <==> GetAttr(value) == Bool(true) || (GetAttr(value).Str? && Lower(GetAttr(value).s) in TruthyTokens)
    {
      AsBoolean(GetAttr(value))
    }
  }

  /** What `init(config_file, section)` does to the module store `d`. */
  function InitLoad(d: Dict, file: ConfigFile, section: string): (r: Loaded)
    ensures d.Keys <= r.dict.Keys
    ensures r.outcome.Fail? && !IsJsonPath(file.path) ==> r.dict == d
  {
    if IsJsonPath(file.path) then JsonLoad(d, file.json) else ConfigparserLoad(d, file.ini, section)
  }

  /** `init(config_file, section)` as written: its non-JSON branch calls
      `_build_attributes`, which is not defined, so it raises NameError. */
  function InitAsWritten(d: Dict, file: ConfigFile, section: string): (r: Loaded)
    ensures r == InitLoad(d, file, section) || r == Loaded(d, Fail(NameError))
    ensures IsJsonPath(file.path) ==> r == InitLoad(d, file, section)
  {
    if IsJsonPath(file.path) then JsonLoad(d, file.json) else Loaded(d, Fail(NameError))
  }

  /** `init(config_file, section)`: loads the file into the module store and returns that store. */
  method Init(file: ConfigFile, section: string, store: Namespace) returns (r: Result<Namespace>)
    modifies store
    ensures store.dict == InitLoad(old(store.dict), file, section).dict
    ensures InitLoad(old(store.dict), file, section).outcome == Pass ==> r == Ok(store)
    ensures InitLoad(old(store.dict), file, section).outcome.Fail? ==>
      r == Err(InitLoad(old(store.dict), file, section).outcome.error)
  {
    var outcome: Outcome;
    if Suffix(BaseName(file.path)) == ".json" {
      outcome := BuildAttributesJson(file, store);
    } else {
      outcome := BuildAttributesConfigparser(file, section, store);
    }
    if outcome.Fail? {
      return Err(outcome.error);
    }
    return Ok(store);
  }

  /** Module `get_boolean(value)`: `getattr` without a default, so a missing name raises. */
  function GetBoolean(store: Namespace, value: string): (r: Result<bool>)
    reads store
    ensures value !in store.dict ==> r == Err(AttributeError)
    ensures value in store.dict ==> r == AsBoolean(store.dict[value])
  {
    if value in store.dict then AsBoolean(store.dict[value]) else Err(AttributeError)
  }

  /** Module `get(value, default)`: the attribute under exactly that name, else the default. */
  function Get(store: Namespace, value: string, default: Value): (r: Value)
    reads store
    ensures value in store.dict ==> r == store.dict[value]
    ensures value !in store.dict ==> r == default
  {
    if value in store.dict then store.dict[value] else default
  }
}
