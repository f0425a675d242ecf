# pydartpub core in Dafny

This project models the data layer of `pydartpub`, a Python client for the Dart package
repository (pub.dev), and proves properties of it. It covers four parts:

- **The dependency-declaration codec** (`pypub/structures/dependency.py`). There are five
  immutable variants: hosted, externally hosted, git, path and SDK. Each has an encoder to
  the raw YAML/JSON shape, and one decoder dispatches on that shape.
- **The `Pubspec` manifest record and `parse_from_dict`** (`pydartpub/structures/pubspec.py`).
  The constructor stores empty collections as absent. The parser filters a decoded
  manifest to the record's fields, converts the typed ones and constructs the record.
- **The search request's parameter rules** (`pydartpub/api/cmd/search.py`). These cover
  page validation and which query parameters are sent.
- **The documentation-status results** (`pydartpub/api/result/documentations.py`). These
  cover the status enumeration, the invariant that documentation implies `SUCCESS`, and
  documentation-URL resolution.

Modules:

- `Wrappers` (`wrappers.dfy`): `Option` and `Result`.
- `Versions` (`versions.dfy`): version constraints and versions as opaque values that
  remember their text. The `versions` library's parse and format are not modelled beyond
  that.
- `RawJson` (`raw_json.dfy`): raw decoded values (`None`, bool, int, str, list, dict).
  A dict is an ordered sequence of entries, because the decoder dispatches on the first
  key. This module also holds Python truthiness, `dict.get` and dict comprehensions.
- `Dependencies` (`dependency.dfy`), `Manifest` (`manifest.dfy`), `Search` (`search.dfy`)
  and `Documentations` (`documentations.dfy`): one module per source file.

Python exceptions become the `Err` side of a `Result`, and a `ParseError`, `DecodeError`,
`SearchError` or `DocumentationError` names the failure.

Where the code as written departs from its evident intent, the model follows the intent
and models the written behaviour in a separate `...AsWritten` member (see "## Findings").
Two further departures are masked by the first-key lookup of line 133, which fails for
every map before they are reached:

- `pypub/structures/dependency.py:145` builds a git dependency from a bare URL without
  `path` and `ref`. Once line 133 is corrected, every bare-URL git entry raises TypeError
  there.
- `pypub/structures/dependency.py:151` stores the SDK version unparsed. Once line 133 is
  corrected, an SDK dependency holds its version as a plain string.

`Decode` models both as intended: path and ref absent, and the SDK version parsed like the
hosted one.

`parse_from_dict` is an imperative method, `Manifest.ParseFromDict`. Like the source, it
fills a pending-conversions map in two phases:

- `Manifest.PendingScalarConversions`: conditional inserts for version, environment and
  screenshots.
- `Manifest.PendingBlockConversions`: a `for` loop over the three dependency blocks.

It then updates the filtered map with the conversions and constructs the record. Its contract ties the result to two declarative predicates:

- `Acceptable`: when the manifest yields a record at all.
- `Describes`: what each attribute then holds.

`_construct_url` is likewise a method, `Search.CollectParams`, proved against the
function `Search.SearchParams`.

## Model

| member | source | states |
|---|---|---|
| Dependencies.ConstraintText | pypub/structures/dependency.py:10-11 | An absent constraint is written "any"; a present one is written as text that parses back to the same constraint. |
| Dependencies.Tag | pypub/structures/dependency.py:49-122 | The tag key of every map-shaped variant is one of the four keys the decoder dispatches on. |
| Dependencies.Encode | pypub/structures/dependency.py:31-122 | Hosted encodes to a string ("any" when unconstrained); every other variant encodes to a map whose first key is its tag. ExternalHosted has exactly the keys "hosted" and "version", with the constraint's text. Its hosted value is the bare host when there is no name, and otherwise a map of exactly "name" and "url" holding the name and the host. Git is one entry. Its value is the bare URL when path and ref are both empty, and otherwise a map holding the URL plus the path and the ref that are present, and nothing else. Path is exactly {"path": p}. Sdk holds its SDK name, has no key besides "sdk" and "version", and has "version" exactly when a constraint is present, with that constraint's text. |
| Dependencies.ConstraintAt | pypub/structures/dependency.py:137-138 | A falsy "version" sibling gives no constraint; a non-empty string is parsed. |
| Dependencies.RequiredString | pypub/structures/dependency.py:142-147 | A required key succeeds exactly when its value is a string; a missing key is a KeyError naming it. |
| Dependencies.OptionalString | pypub/structures/dependency.py:147 | `.get` of a missing or null key gives no value; a string value is returned as is. |
| Dependencies.Decode | pypub/structures/dependency.py:127-155 | Null decodes to Hosted with no constraint, and a string to Hosted with that string parsed. The result is Hosted exactly for null or a string. Anything that is not null, a string or a map is a TypeError. A map dispatches on its first key alone: an empty map fails, an unknown first key is a KeyError naming it, and a successful decoding's tag is that first key. `hosted` decodes exactly when its version sibling parses and its value is a host string or a map with a string `url` and a printable `name`. It then gives ExternalHosted with that version and that host, plus the `str()` of the name when given as a map; once the version parses, a `hosted` value that is neither a string nor a map fails. `git` with a string gives Git with that URL and no path or ref. `git` with a map decodes exactly when `url` is a string and `path` and `ref` are absent, null or strings, and gives those three; any other `git` value fails. `path` gives Path of its string and otherwise fails. `sdk` with a string decodes exactly when its version sibling parses and gives Sdk of both; any other `sdk` value fails. |
| Dependencies.DecodeDependencies | pypub/structures/dependency.py:157 | The block decodes exactly when every entry does. It then has exactly the input's package names, each mapped to the decoding of its value. Otherwise the error is that of the first entry that fails. |
| Dependencies.HostedRoundTrip | pypub/structures/dependency.py:10-32 | Decoding a Hosted encoding gives its constraint back; an absent constraint comes back as "any". |
| Dependencies.ExternalHostedRoundTrip | pypub/structures/dependency.py:48-142 | Decoding an ExternalHosted encoding keeps the host and a present name, and reads the version back from its written text. |
| Dependencies.GitRoundTrip | pypub/structures/dependency.py:75-147 | Decoding a Git encoding keeps the URL and the present path and ref; the bare-URL shorthand reads back with both absent. |
| Dependencies.PathRoundTrip | pypub/structures/dependency.py:101-149 | Decoding a Path encoding gives the same path. |
| Dependencies.SdkRoundTrip | pypub/structures/dependency.py:117-151 | Decoding an Sdk encoding keeps the SDK name and a constraint that prints non-empty. |
| Dependencies.RoundTrip | pypub/structures/dependency.py:31-151 | For every canonical dependency, decoding its encoding gives it back. |
| Dependencies.EncodingIsStable | pypub/structures/dependency.py:31-151 | Encoding what the decoder reads back from an encoding reproduces that encoding. |
| Dependencies.EncodeAsWritten | pypub/structures/dependency.py:10-91 | As written, Hosted and ExternalHosted encoding raise NameError, and Git always encodes to {"git": None}. |
| Dependencies.GitEncodingAsWrittenDoesNotDecode | pypub/structures/dependency.py:76-79 | The as-written Git encoding does not decode, while the intended one decodes back to the dependency. |
| Dependencies.DecodeAsWritten | pypub/structures/dependency.py:127-133 | As written, only a bare string decodes, and to what the intended decoder gives. |
| Dependencies.DecodeAsWrittenRejectsMaps | pypub/structures/dependency.py:129-133 | As written, null and every map encoding fail to decode; as intended, they all decode. |
| Dependencies.DecodeDependenciesAsWritten | pypub/structures/dependency.py:157 | As written, a block decodes exactly when every package name has two characters. |
| Dependencies.DecodeDependenciesAsWrittenFails | pypub/structures/dependency.py:157 | The block {"http": null} fails as written and decodes to {"http": Hosted} as intended. |
| RawJson.MapEntries | pypub/structures/dependency.py:157 | A dict comprehension over a dict's items succeeds exactly when the value function succeeds on every value. It then has the dict's keys, each mapped to the image of its value. Otherwise it fails with the first failing entry's error. |
| Manifest.NewPubspec | pydartpub/structures/pubspec.py:56-118 | The constructed record is normalised: no collection is present but empty. Every scalar accessor returns its argument, and every collection accessor returns its argument when non-empty. |
| Manifest.Construct | pydartpub/structures/pubspec.py:280 | `Pubspec(**kwargs)` fails on a keyword naming no parameter and on a missing `name`. It succeeds exactly when `name` is a string and every other argument fits its attribute. The record is then normalised and each attribute holds its argument, with `None` where the keyword is missing. |
| Manifest.ConvertEnvironment | pydartpub/structures/pubspec.py:265-267 | The environment map converts exactly when every value is a string. It then keeps its SDK names, each mapped to its parsed constraint. |
| Manifest.ScreenshotOf | pydartpub/structures/pubspec.py:271 | A screenshot entry converts exactly when it is a map with string `description` and `path`. A missing key is a KeyError naming it. |
| Manifest.ConvertScreenshots | pydartpub/structures/pubspec.py:269-271 | The screenshot list converts exactly when every entry does, to one screenshot per entry in input order. Otherwise the first failing entry's error is returned. |
| Manifest.PendingScalarConversions | pydartpub/structures/pubspec.py:260-271 | The first conversions succeed exactly when a truthy version is a string, a truthy environment a map of strings and a truthy screenshot list a list of complete entries. Exactly the truthy ones are then pending, each with its conversion. Otherwise the error is that of the first value that does not fit (`Manifest.ScalarError`): `WrongType` for a wrong shape, or the conversion's own error. |
| Manifest.PendingBlockConversions | pydartpub/structures/pubspec.py:273-276 | The loop succeeds exactly when every truthy dependency block is a map whose entries all decode. Each block is then pending exactly when it is truthy, with its decoding, and the earlier conversions are kept. Otherwise the error is that of the first block, in the loop's order, that does not fit (`Manifest.FirstBlockError`): `WrongType` for a block that is not a map, or the decoder's error passed through in `BadDependency`. |
| Manifest.PendingBlockStep | pydartpub/structures/pubspec.py:273-276 | Each loop step adds the decoding of its block exactly when the block is truthy, and leaves the earlier conversions unchanged. |
| Manifest.ConstructFromManifest | pydartpub/structures/pubspec.py:278-280 | Constructing from the updated map gives a record exactly when the manifest is acceptable, and then the normalised record it describes. |
| Manifest.ParseFromDict | pydartpub/structures/pubspec.py:247-280 | The parser returns a record exactly when the manifest is acceptable, and a manifest without `name` fails. The record is normalised and holds, attribute by attribute, what the manifest describes. A truthy version, environment, screenshot list or dependency block is converted, and a falsy one is stored as absent. Strings are copied, and string lists are kept when truthy. A manifest that is not acceptable fails with the first conversion's error, then the first dependency block's error. Once both fit, a special name that passes the filter is an unexpected keyword, a missing `name` is `MissingName`, and a non-string `name` is `WrongType("name")`. |
| Manifest.UnknownKeysIgnored | pydartpub/structures/pubspec.py:255-258 | Adding an entry whose key no field is named after changes neither acceptance nor the record described. |
| Manifest.SameFieldsSameRecord | pydartpub/structures/pubspec.py:255-258 | Acceptance and the record described depend only on the field values and on which of the filter's other names are present. |
| Manifest.NameOnly | pydartpub/structures/pubspec.py:56-76 | A manifest with only a name is accepted, and describes exactly the record with that name and every other attribute absent. |
| Manifest.KnownFieldsAsWritten | pydartpub/structures/pubspec.py:255-258 | As written, the filter succeeds exactly when every manifest key has two characters. |
| Manifest.ParseFromDictAsWrittenFails | pydartpub/structures/pubspec.py:256 | As written, the filter either raises ValueError or keeps nothing, and the constructor then misses `name`: no manifest ever yields a record. |
| Manifest.ScreenshotKeyNeverKept | pydartpub/structures/pubspec.py:269-271 | As written, the key `screenshot` never survives the filter, so the `screenshots` list reaches the constructor unconverted. |
| Manifest.ParseDependenciesDictAsWritten | pydartpub/structures/pubspec.py:276 | As written, the block parser applied to one dependency fails on every non-empty version string and on null. |
| Manifest.DependencyBlockAsWritten | pydartpub/structures/pubspec.py:273-276 | As written, a dependency block converts exactly when the block parser succeeds on every single dependency value. |
| Manifest.DependencyBlockAsWrittenFails | pydartpub/structures/pubspec.py:276 | The block {"http": "^1.0.0"} fails as written and decodes to its hosted dependency as intended. |
| Search.Lower | pydartpub/api/cmd/search.py:39 | Lower-casing keeps the length and lowers each character. |
| Search.OrderValuesAreLowercase | pydartpub/api/cmd/search.py:8-15 | All seven order values are already lower case, so the `sort` parameter is the order's own value. |
| Search.PutNewKeyAppends | pydartpub/api/cmd/search.py:30-39 | Inserting a key not yet in the parameter dict appends it at the end. |
| Search.SearchParams | pydartpub/api/cmd/search.py:30-39 | `q` is present exactly when the query is a non-empty string, with the query as its value. `page` is present exactly when the page is not 1, and `sort` exactly when an order is given, with its value. The dict is empty exactly for the defaults. |
| Search.SearchParamsOrdered | pydartpub/api/cmd/search.py:30-39 | The collected parameters come in the order q, page, sort, each at most once, and no other key is collected. |
| Search.CollectParams | pydartpub/api/cmd/search.py:21-39 | A page below 1 is a ValueError before anything is built. Otherwise the collected dict is `SearchParams`, and `page` is in it exactly when the page is at least 2. |
| Search.ConstructUrlAsWritten | pydartpub/api/cmd/search.py:21-41 | As written, every valid call returns the bare search endpoint, whatever the query, page and order. |
| Search.ConstructUrl | pydartpub/api/cmd/search.py:21-41 | As intended, a valid call returns the search endpoint with the collected parameters; a page below 1 is refused. |
| Search.DefaultsCollectNothing | pydartpub/api/cmd/search.py:43 | The defaults (no query, page 1, no order) collect no parameter. |
| Search.SearchExample | pydartpub/api/cmd/search.py:30-41 | The query "http", page 2, popularity order collects q=http, page=2, sort=popularity in that order. |
| Documentations.StatusOf | pydartpub/api/result/documentations.py:9-12 | A status value names a member exactly when it is 0, 1 or 2, and the member carries that value. |
| Documentations.StatusValuesRoundTrip | pydartpub/api/result/documentations.py:9-12 | Every status is recovered from its value, so the three statuses are distinct. |
| Documentations.NewVersionDocumentation | pydartpub/api/result/documentations.py:15-34 | Construction fails exactly when documentation is claimed without `SUCCESS`. Otherwise the object satisfies the invariant and its accessors return the arguments. |
| Documentations.DocumentedImpliesSuccess | pydartpub/api/result/documentations.py:16-17 | Every accepted object with documentation has status `SUCCESS`. |
| Documentations.ResolveDocumentationUrl | pydartpub/api/result/documentations.py:36-40 | The URL is absent exactly when there is no documentation. Otherwise it is the repository site followed by "documentation", the package name and the version string. |
| Documentations.ResolvedUrlMeansSuccess | pydartpub/api/result/documentations.py:36-40 | For a valid object, a resolvable documentation URL means the build succeeded. |

## Left out

- HTTP execution, response handling and the user agent (`pydartpub/api/cmd/factory.py`) are network and runtime I/O. The search endpoint and the repository site are parameters instead.
- Environment-variable reads and URL joining (`pydartpub/url.py`, `pydartpub/api/url.py`, `pydartpub/api/client.py`) are I/O. A URL is modelled as a site plus path segments (`Documentations.Location`) or an endpoint plus parameters (`Search.SearchUrl`). Percent-encoding and rendering by `furl` are not modelled.
- Version parsing and printing come from the external `versions` library. Constraints and versions are opaque values that remember their text, so the model proves nothing about version semantics.
- Dependencies.Decode, Dependencies.ConstraintAt, Dependencies.DecodeDependenciesAsWritten, Manifest.ConvertEnvironment and Manifest.ParseFromDict: parsing a constraint or a version never fails in the model, whereas the `versions` library raises on malformed text. Those parse errors are not modelled.
- Dependencies.EncodingIsStable: for an absent Hosted or ExternalHosted constraint, it relies on the model's assumption that the library prints the parsed constraint "any" back as "any".
- `PubspecSerializable.__iter__` and `__str__`, and `PubDependency.__str__`, are debug conversions and are not modelled.
- `frozendict`, `tuple` and `copy.deepcopy` are not modelled separately. Dafny values are immutable, so the copies and the caller's dictionary cannot alias. Accessors are datatype fields, which have no mutators.
- `PubDocumentation` is the datatype `Documentations.PackageDocumentation`. Its accessors return the stored fields, and its versions are the given sequence in order, so there is nothing beyond the datatype to state.
- Dependencies.Decode: it is typed where Python stores whatever it is given. A non-string url, path, SDK name, ref or version is an error (`NotAString`, `NotAMap`), whereas Python would store the value or fail later.
- RawJson.PyStr: `str()` of a list or a dict is not modelled, so such a hosted `name` is an error instead of its Python text. Numbers print as decimal integers; floats are not modelled.
- Manifest.ParseFromDict and Manifest.Construct: typed in the same way. `Pubspec(**kwargs)` checks no argument's type, yet the model's constructor succeeds only when every argument fits its attribute. A value of the wrong shape for its attribute is `WrongType`, where Python would store it (a truthy non-list `authors`, a non-string `homepage`). A falsy `version` is stored as absent, where Python stores the falsy value itself. Which `WrongType` a manifest with a string `name` and an ill-shaped other attribute fails with is not stated, since Python raises none there.
- Manifest.ParseFromDict: the filter's extra names are those of `__module__`, `__doc__` and `__init__`. Python 3.13 and later also list `__firstlineno__` and `__static_attributes__`, which are not modelled.
- Manifest.ParseDependenciesDictAsWritten: a list value is taken to fail with `TypeError`. Python would try to unpack each of its items as a pair.
- Search.Lower: it lowers ASCII letters only. Python's `str.lower` covers all of Unicode, which does not matter for the seven order values.
- Dict keys are unique in Python, and the model agrees with Python only on such dicts. The model's entry sequences may repeat a key. Lookups then take the first entry: `dict.get`, the decoder's sibling lookups and the key filter `Manifest.KnownFields`. The comprehensions that build a new dict from the entries keep the last (`RawJson.MapEntries`: dependency blocks and environments).
- Documentations.NewVersionDocumentation: it models the constructor's `assert` as always checked. Under `python -O` the assertion is removed and any combination is accepted.

## Findings

| source | as written | input that shows it | evidently intended | confidence | as-written member | corrected member |
|---|---|---|---|---|---|---|
| pypub/structures/dependency.py:32 | `__version_constraint_in_str` is called inside a class body, where Python mangles it to `_PubHostedDependency__version_constraint_in_str`, which does not exist | encoding `Hosted(None)` or any ExternalHosted dependency raises NameError | call the module-level helper: "any" or the constraint text | not executed | Dependencies.EncodeAsWritten | Dependencies.HostedRoundTrip |
| pypub/structures/dependency.py:76-79 | `context` captures `git_context` while it is still `None`, and the later assignments rebind the local only | `Git("https://x", None, None)` encodes to {"git": None} | {"git": url} or {"git": {url, path, ref}} | not executed | Dependencies.GitEncodingAsWrittenDoesNotDecode | Dependencies.GitRoundTrip |
| pypub/structures/dependency.py:129 | `PubHostedDependency()` omits the required `version` argument | decoding a null dependency value raises TypeError | Hosted with no constraint | not executed | Dependencies.DecodeAsWrittenRejectsMaps | Dependencies.Decode |
| pypub/structures/dependency.py:133 | `rdv.keys()[0]` subscripts a keys view, which Python 3 refuses | decoding {"path": "../x"} raises TypeError | dispatch on the first key | not executed | Dependencies.DecodeAsWrittenRejectsMaps | Dependencies.RoundTrip |
| pypub/structures/dependency.py:157 | `for k, v in dependencies_dict` iterates the keys and unpacks each key string | the block {"http": null} raises ValueError | iterate `.items()` | not executed | Dependencies.DecodeDependenciesAsWrittenFails | Dependencies.DecodeDependencies |
| pydartpub/structures/pubspec.py:256 | `for k, v in copy.deepcopy(json)` iterates the keys and unpacks each key string | any manifest, e.g. {"name": "x"}, raises ValueError (or TypeError for missing `name`) | iterate `.items()` | not executed | Manifest.ParseFromDictAsWrittenFails | Manifest.ParseFromDict |
| pydartpub/structures/pubspec.py:269 | reads the key `screenshot`, which is not a field name and never survives the filter | once line 256 is corrected, {"name": "x", "screenshots": [{"description": "d", "path": "p"}]} stores the raw dicts | read `screenshots` | not executed | Manifest.ScreenshotKeyNeverKept | Manifest.ConvertScreenshots |
| pydartpub/structures/pubspec.py:276 | calls the block parser `parse_dependencies_dict` on each single dependency value | once line 256 is corrected, the block {"http": "^1.0.0"} raises ValueError | decode the block: `parse_dependencies_dict(deps_raw)` | not executed | Manifest.DependencyBlockAsWrittenFails | Manifest.ParseFromDict |
| pydartpub/api/cmd/search.py:41 | returns `surl.tostr()` without attaching the collected `param` dict | query "http", page 2, order popularity returns the bare endpoint | the endpoint with q, page and sort attached | not executed | Search.ConstructUrlAsWritten | Search.ConstructUrl |
