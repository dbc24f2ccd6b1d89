# Configuration store of daemon_template, in Dafny

This project models `config/__init__.py`, the configuration store of the
daemon template. The store loads key/value pairs from an INI-style section
or a flat JSON object into a Python object as attributes, merging them into
whatever the object already holds. It then answers lookups. There are two
kinds of store: the process-wide one (the module object, filled by `init`)
and independent `LocalConfig` instances.

The model keeps the source's shape:

- `Values`: the tagged values a store holds (string, int, bool, null, and an
  opaque "other" for JSON arrays and nested objects), the Python exceptions the
  code raises, Python truthiness and ASCII `str.lower`.
- `IntCoercion`: Python's `int()` on a string, as used for best-effort
  coercion. It uses a simplified ASCII grammar: optional surrounding
  whitespace (space, tab, `\n`, `\v`, `\f`, `\r`), an optional sign, then
  decimal digits with single underscores between digits, at most 4300 digits
  (Python's default `sys.get_int_max_str_digits()`). It also holds the coercion of configparser values and of
  JSON values (`int(True) == 1`, `int(False) == 0`, other failures swallowed).
- `Attributes`: an object's `__dict__` as a `Namespace` class with a map
  field. `Assign` folds a sequence of `setattr` calls. Lemmas prove that the
  last write wins, that untouched names keep their values, and that two loads
  in a row are one load of both.
- `Paths`: `pathlib`'s `.suffix` of the last path component, used by `init`
  to choose the loader.
- `Config`: the two loaders as loop methods that mutate a target `Namespace`,
  each proved against a specification function (`ConfigparserLoad`,
  `JsonLoad`). Also `LocalConfig` (a class holding its own `Namespace`), the
  module-level `init`, `get` and `get_boolean`, and `get_boolean`'s shared
  logic `AsBoolean`.
- `ConfigProperties`: lemmas that relate several operations. They cover
  merging, last-value-wins, JSON coercion and its TypeError on integer-looking
  keys, lookup fallbacks, the ways `get_boolean` can fail, and the choice of
  loader.

Parsing is not modelled. A `ConfigFile` carries its path plus what configparser
and `json.load` would make of its text: configparser's `section -> items()` map
with keys already lower-cased, and the JSON object's `items()`. Each is given as
a `Result`, so a parse error, or a JSON file that cannot be opened, is an input.
The module object `sys.modules[__name__]` is an ordinary `Namespace` passed to
`Init`, `Get` and `GetBoolean`.

The source calls a function `_build_attributes` at config/__init__.py:33, :37
and :103, but never defines it (see Findings). The model calls
`_build_attributes_configparser` at those three places. `Config.InitAsWritten`
keeps the as-written behaviour of `init`, which raises NameError.

Some of the code's behaviour is easy to misread:

- `get_boolean` can fail. A stored non-zero int, including the int a section
  value "1" is coerced to, or a JSON `true`, raises AttributeError. The module
  version also raises on a missing name.
- Keys are not case-insensitive everywhere. Only configparser lower-cases keys.
  JSON keys are stored as written. Only `LocalConfig` falls back to the
  lower-cased name; module `get` and `get_boolean` use the exact name.
- A missing INI file is not an error. `ConfigParser.read` skips it, and loading
  section DEFAULT from it then does nothing. Any other section raises KeyError.
- Integer coercion accepts what `int()` accepts: surrounding whitespace, `+`/`-`
  and underscores between digits. It is not limited to plain signed digit
  strings. It also refuses what `int()` refuses: a number with more than 4300
  digits stays a string, and as a JSON key it stays a valid name.

## Model

| member | source | states |
|---|---|---|
| `IntCoercion.ParseInt` | config/__init__.py:67 | `int()` on a str, `None` where it raises ValueError; it accepts exactly the strings of whitespace, optional sign, well-formed digits within 4300 and whitespace (`ParseIntAccepts` one way, `ParseIntShape` the other, which also fix the value); `ParseIntRejectsForeign`, `ParseIntRejectsBlank`, `ParseIntRejectsLong` and `ParseIntRejectsExamples` name refused classes |
| `IntCoercion.ParseIntShape` | config/__init__.py:67 | every string `int()` accepts is whitespace, an optional sign, well-formed digits within 4300, then whitespace |
| `IntCoercion.StripSplit` | config/__init__.py:67 | the text `int()` reads is the string with only whitespace removed around it |
| `IntCoercion.ParseIntAccepts` | config/__init__.py:67 | an optional sign and digits with single underscores between them, at most 4300 digits, with whitespace around, are read as the signed base-10 value of the digits |
| `IntCoercion.ParseIntRoundTrip` | config/__init__.py:67 | `int()` reads `str(n)` back as n, also with whitespace before and after it, for every n of at most 4300 digits |
| `IntCoercion.ParseIntRejectsLong` | config/__init__.py:66-69 | a well-formed number with more than 4300 digits makes `int()` fail, so the value stays a string |
| `IntCoercion.ParseIntAcceptsExamples` | config/__init__.py:67 | `int("1")` is 1 and `int(" -1_000\n")` is -1000 |
| `IntCoercion.ParseIntRejectsExamples` | config/__init__.py:66-69 | `int()` fails on "1__0", "_1", "1_" and on "\x1c5", whose separator character it does not skip |
| `IntCoercion.ParseIntRejectsForeign` | config/__init__.py:66-69 | a character that is neither whitespace, sign, digit nor underscore makes `int()` fail, so the value is kept as it is |
| `IntCoercion.ParseIntRejectsBlank` | config/__init__.py:66-69 | `int()` of an empty or all-whitespace string fails, so such a value stays a string |
| `IntCoercion.TrimStartShape` | config/__init__.py:67 | the leading strip done by `int()` removes only space, tab, `\n`, `\v`, `\f` and `\r`, and stops at the first other character |
| `IntCoercion.TrimEndShape` | config/__init__.py:67 | the trailing strip done by `int()` removes only space, tab, `\n`, `\v`, `\f` and `\r`, and stops at the last other character |
| `IntCoercion.CoerceString` | config/__init__.py:66-69 | never raises: the int `int()` gives, else the string unchanged; stated for each stored key by `ConfigProperties.SectionLoadStoresLastValue` |
| `IntCoercion.CoerceJson` | config/__init__.py:85-86 | booleans become 1/0, strings as `CoerceString`, everything else unchanged; stated for each stored key by `ConfigProperties.JsonLoadStoresLastValue` |
| `Values.Lower` | config/__init__.py:52 | ASCII `str.lower()`; that lower-casing twice changes nothing is `Values.LowerIdempotent`, and its effect on lookups is stated by `ConfigProperties.LocalLookupIgnoresCase`, `ConfigProperties.MixedCaseKeyOnlyExact` and `ConfigProperties.AsBooleanIgnoresCase` |
| `Values.LowerIdempotent` | config/__init__.py:52 | lower-casing a lower-cased name changes nothing |
| `Values.Truthy` | config/__init__.py:45 | Python's `bool()`: empty string, 0, False, None and an empty list/object are falsy; its use by `get_boolean` is stated by `Config.AsBoolean` |
| `Attributes.Assign` | config/__init__.py:70 | after a sequence of `setattr` calls the object has exactly its old names plus the names set |
| `Attributes.AssignLastWins` | config/__init__.py:65-70 | the last `setattr` of a name decides its value |
| `Attributes.AssignKeepsOthers` | config/__init__.py:65-70 | a name no pair sets keeps its value or stays absent (merge, not replace) |
| `Attributes.AssignConcat` | config/__init__.py:35-37 | two loads in a row equal one load of both pair sequences, the second last |
| `Paths.BaseName` | config/__init__.py:100 | `Path(p).name` holds no '/'; for `dir/name` it is `name` (`Paths.JsonPathIff`), and a bare file name is its own name (`Paths.BaseNameOfName`) |
| `Paths.BaseNameOfName` | config/__init__.py:100 | a path that is a bare file name (no '/', not "." ) is its own `.name` |
| `Paths.IsJsonPath` | config/__init__.py:100 | the test `Path(p).suffix == '.json'`; characterised by `Paths.JsonPathIff` and `Paths.JsonNameIff`, and shown on examples by `ConfigProperties.JsonFileNames` and `ConfigProperties.NonJsonFileNames` |
| `Paths.Suffix` | config/__init__.py:100 | `.suffix`: from the last dot on unless that dot is first or last; when it is ".json" is stated by `Paths.SuffixJsonIff` |
| `Paths.LastDot` | config/__init__.py:100 | the index found is a dot and no dot follows it; -1 means there is no dot |
| `Paths.SuffixJsonIff` | config/__init__.py:100 | a name's suffix is ".json" iff it ends with ".json" after at least one more character (case-sensitive) |
| `Paths.JsonPathIff` | config/__init__.py:100 | for `dir/name`, `.name` is `name`, and the JSON loader is chosen iff `name` ends with ".json" after at least one character, whatever the directory |
| `Paths.JsonNameIff` | config/__init__.py:100 | the same for a path that is a bare file name |
| `Config.FirstTrue` | config/__init__.py:82-84 | the position of the first integer-looking key: all keys before it are not, and the one at it is |
| `Config.SectionItems` | config/__init__.py:65 | `_config[section]` exists iff the section is in the file or is DEFAULT; a DEFAULT the file lacks reads as no pairs; otherwise KeyError |
| `Config.ConfigparserLoad` | config/__init__.py:65-70 | a section load never removes a name; it passes iff the file parsed and the section exists, and a failed load leaves the attributes as they were |
| `Config.JsonLoad` | config/__init__.py:82-92 | a JSON load never removes a name; a file that cannot be read raises its error with nothing set; otherwise it passes or raises TypeError |
| `Config.BuildAttributesConfigparser` | config/__init__.py:54-70 | new attributes are the old ones with each section pair set in order, coerced by `int()`; a parse error or missing section raises before any pair is set |
| `Config.BuildAttributesJson` | config/__init__.py:72-92 | pairs are set in order with values coerced; at the first integer-looking key the load raises TypeError, keeping the pairs already set |
| `Config.AsBoolean` | config/__init__.py:43-47 | True iff the value is `True` or a string whose lower-case form is yes/true/on/1; raises AttributeError iff the value is a non-zero int or a non-empty list/object |
| `Config.LocalConfig.Create` | config/__init__.py:32-33 | a fresh instance holding exactly the section's coerced pairs, or the load's exception |
| `Config.LocalConfig.Append` | config/__init__.py:35-37 | merges another section into this instance only; raises before any pair is set on a parse error or missing section |
| `Config.LocalConfig.GetAttr` | config/__init__.py:49-52 | never fails; the value under the exact name, else under the lower-cased name, else None |
| `Config.LocalConfig.GetBoolean` | config/__init__.py:39-47 | a missing name gives False; raises iff the looked-up value is a non-zero int or non-empty list/object; True iff `True` or a truthy token |
| `Config.InitLoad` | config/__init__.py:100-103 | what `init` does to the module store with the section loader in the non-JSON branch: no name is removed, and a failed section load leaves the store as it was |
| `Config.InitAsWritten` | config/__init__.py:100-103 | `init` as written agrees with `InitLoad` on JSON paths and otherwise raises NameError with the store unchanged |
| `Config.Init` | config/__init__.py:94-104 | loads with the JSON loader iff the suffix is ".json", otherwise the section loader; returns the store it loaded into, or the exception |
| `Config.GetBoolean` | config/__init__.py:106-115 | a missing name raises AttributeError (no default at :108); otherwise the shared boolean reading |
| `Config.Get` | config/__init__.py:117-119 | the value under exactly that name, otherwise the default; no lower-casing |
| `ConfigProperties.SectionLoadStoresLastValue` | config/__init__.py:65-70 | each section key is stored; its last pair's value is stored as `Int(n)` when `int()` gives n, else as the original string |
| `ConfigProperties.SectionLoadMerges` | config/__init__.py:65-70 | keys absent from the loaded section keep their prior values or stay absent |
| `ConfigProperties.AppendIsLayered` | config/__init__.py:35-37 | a load followed by `append` is one load of both sections, so the later file wins on shared keys |
| `ConfigProperties.JsonLoadRaisesIff` | config/__init__.py:83-92 | a JSON load raises iff some key is integer-looking, and only with TypeError |
| `ConfigProperties.JsonLoadStopsAtIntName` | config/__init__.py:82-92 | the pairs before the first integer-looking key are stored, and none after it |
| `ConfigProperties.JsonLoadStoresLastValue` | config/__init__.py:82-86 | without integer-looking keys each key gets its last value coerced: booleans become 1/0, numeric strings ints; null, lists, objects and other strings are kept |
| `ConfigProperties.JsonLoadMerges` | config/__init__.py:82-92 | keys absent from the JSON object keep their prior values or stay absent |
| `ConfigProperties.LocalLookupIgnoresCase` | config/__init__.py:49-52 | when all stored keys are lower-case, names that differ only in case find the same value |
| `ConfigProperties.MixedCaseKeyOnlyExact` | config/__init__.py:49-52 | a key stored with capitals is found only by its exact name, not by its lower-case form, through either lookup |
| `ConfigProperties.GetDoesNotFoldCase` | config/__init__.py:117-119 | module `get` returns the default where `LocalConfig` would find the lower-cased key |
| `ConfigProperties.AsBooleanIgnoresCase` | config/__init__.py:45 | token matching is case-insensitive: "YES", "On", "TRUE" give True; "no", "" and "2" give False |
| `ConfigProperties.SectionOneBreaksGetBoolean` | config/__init__.py:45 | a section value "1" is stored as the int 1, and `LocalConfig.get_boolean` on it raises AttributeError |
| `ConfigProperties.JsonBooleanGetBoolean` | config/__init__.py:113 | a JSON `true` becomes 1 and module `get_boolean` raises on it; `false` becomes 0 and reads False |
| `ConfigProperties.GetBooleanOnMissingName` | config/__init__.py:108 | on a missing name the `LocalConfig` version gives False and the module version raises |
| `ConfigProperties.InitAppConf` | config/__init__.py:103 | `init("app.conf")` as written raises NameError; with the section loader it stores timeout = 30 (int) and host = "localhost" |
| `ConfigProperties.InitAsWrittenNonJson` | config/__init__.py:100-103 | as written, every non-JSON path raises NameError and leaves the store unchanged |
| `ConfigProperties.JsonFileNames` | config/__init__.py:100 | "config.json" and "/etc/app/config.json" go to the JSON loader |
| `ConfigProperties.NonJsonFileNames` | config/__init__.py:100 | "config.JSON", ".json" and "config.json.bak" do not |
| `ConfigProperties.IndependentInstances` | config/__init__.py:30-37 | two instances loaded from one file share no state: appending to one leaves the other as loaded |

## Left out

- File opening, `ConfigParser.read` and `json.load` are foreign library calls and I/O. Their results are inputs (`ConfigFile`).
- configparser's key lower-casing, DEFAULT inheritance and `allow_no_value` are library behaviour, already applied to the input.
- Config.BuildAttributesConfigparser: `%` interpolation is not modelled. `_config[section].items()` interpolates each value only when the loop at config/__init__.py:65 reads it, so a bad value such as `rate = 50%` raises InterpolationSyntaxError after the earlier pairs are already set. The model takes each section's values as already-interpolated strings and treats a section load as all-or-nothing. `Config.ConfigparserLoad`, `Config.LocalConfig.Create` and `Config.LocalConfig.Append` inherit this.
- JSON floats are not representable: `int()` on a float truncates, which is floating-point behaviour.
- Nested JSON objects and arrays are kept unchanged as opaque values. The code does not expand them (config/__init__.py:88-91).
- Duplicate keys inside one JSON object are resolved by `json.load` before this code sees them. The model takes any sequence of pairs.
- IntCoercion.ParseInt: only ASCII whitespace and ASCII digits, because Unicode digit and space classes are out of scope. The digit limit is fixed at Python's default of 4300. A limit changed with `sys.set_int_max_str_digits`, and Python versions before the limit was introduced, are not modelled.
- Values.Lower: only ASCII letters are lower-cased. Python's `str.lower` also maps other letters, for instance `"Ä".lower()` is `"ä"`. So where Python finds a configparser key `ä` under `local.Ä` through `__getattr__` (config/__init__.py:52), `Config.LocalConfig.GetAttr` returns None. `LocalConfig.get_boolean` inherits that lookup difference; its token matching does not differ, since the only non-ASCII character `str.lower` maps to ASCII is the Kelvin sign, which becomes `k`, and no token contains `k`.
- Config.LocalConfig.GetAttr: does not model Python's class-level attribute resolution. Neither does module `get`. A stored key named like a method (`append`, `get_boolean`) or like a module-level function or import (`init`, `json`) interacts with those names in ways the model does not capture.
- The `section='DEFAULT'` default arguments are not modelled. Callers pass the section explicitly.
- The module singleton is not global state. It is a `Namespace` passed in, and concurrent mutation is out of scope. Because the store is the module itself, a loaded key with the name of a module-level binding (`configparser`, `json`, `pathlib`, `sys`, `init`, `get`, `get_boolean`, `LocalConfig`, the loaders) or of a builtin the loaders call (`int`, `setattr`, `open`, `getattr`) shadows that binding for later code. The model does not capture this. For example, JSON `{"int": 0, "port": "8080"}` makes every later `int(...)` at config/__init__.py:83 and :85 raise TypeError inside the bare `except`, so port stays the string "8080" where `Config.JsonLoad` stores `Int(8080)`. A key `setattr` makes the `setattr` at :92 raise partway through the load, where `ConfigProperties.JsonLoadRaisesIff` says the load passes.
- run.py (argument parsing, logging, daemon context, signal handlers) and server/core.py (a sleep-and-log loop) are process plumbing and are not part of this model.

## Findings

| source | as written | input that shows it | evidently intended | confidence | as-written member | corrected member |
|---|---|---|---|---|---|---|
| config/__init__.py:33, :37, :103 | `LocalConfig.__init__`, `LocalConfig.append` and the non-JSON branch of `init` call `_build_attributes`, which the module never defines, so they raise NameError | `init("app.conf")` with `[DEFAULT] timeout = 30` (`ConfigProperties.InitAppConf`) | call `_build_attributes_configparser(config_file, section, target)`, whose signature matches | high; not executed | `Config.InitAsWritten`, shown by `ConfigProperties.InitAppConf` and `ConfigProperties.InitAsWrittenNonJson` | `Config.Init`, `Config.LocalConfig.Create`, `Config.LocalConfig.Append` (via `Config.BuildAttributesConfigparser`), proved by `ConfigProperties.InitAppConf` and `ConfigProperties.SectionLoadStoresLastValue` |
