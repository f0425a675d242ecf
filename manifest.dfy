/** The `pubspec.yaml` manifest of a Dart package: its screenshot entries, the `Pubspec`
    record whose constructor normalises empty collections away, and `parse_from_dict`,
    which filters a decoded manifest down to the record's fields, converts the typed ones
    and hands the rest to the constructor as keyword arguments. */
module Manifest {
  import opened Wrappers
  import opened Versions
  import opened RawJson
  import opened Dependencies

  /** `PubspecScreenshot`: a description and the path of the image inside the project. */
  datatype Screenshot = Screenshot(description: string, path: string)

  /** The read-only `Pubspec` record. Sequences stand for the tuples and maps (or entry
      sequences, for the untyped `flutter` section) for the frozen dicts it keeps. */
  datatype Pubspec = Pubspec(
    name: string,
    version: Option<Version>,
    publishTo: Option<string>,
    author: Option<string>,
    authors: Option<seq<string>>,
    environment: Option<map<string, VersionConstraint>>,
    homepage: Option<string>,
    repository: Option<string>,
    issueTracker: Option<string>,
    funding: Option<seq<string>>,
    topics: Option<seq<string>>,
    screenshots: Option<seq<Screenshot>>,
    documentation: Option<string>,
    description: Option<string>,
    dependencies: Option<map<string, Dependency>>,
    devDependencies: Option<map<string, Dependency>>,
    dependencyOverrides: Option<map<string, Dependency>>,
    flutter: Option<seq<(string, Raw)>>)

  // ---------------------------------------------------------------------------
  // Construction
  // ---------------------------------------------------------------------------

  /** `tuple(xs) if xs else None`: an empty sequence is stored as absent. */
  function TupleIfTruthy<T>(xs: Option<seq<T>>): (r: Option<seq<T>>)
    ensures r.None? <==> xs.None? || |xs.value| == 0
    ensures r.Some? ==> r == xs
  {
    if xs.Some? && |xs.value| > 0 then xs else None
  }

  /** `frozendict(m) if m else None`: an empty map is stored as absent. */
  function FrozenDictIfTruthy<K, V>(m: Option<map<K, V>>): (r: Option<map<K, V>>)
    ensures r.None? <==> m.None? || |m.value| == 0
    ensures r.Some? ==> r == m
  {
    if m.Some? && |m.value| > 0 then m else None
  }

  /** No collection attribute of a constructed `Pubspec` is present but empty. */
  predicate IsNormalised(p: Pubspec) {
    && (p.authors.Some? ==> |p.authors.value| > 0)
    && (p.environment.Some? ==> |p.environment.value| > 0)
    && (p.funding.Some? ==> |p.funding.value| > 0)
    && (p.topics.Some? ==> |p.topics.value| > 0)
    && (p.screenshots.Some? ==> |p.screenshots.value| > 0)
    && (p.dependencies.Some? ==> |p.dependencies.value| > 0)
    && (p.devDependencies.Some? ==> |p.devDependencies.value| > 0)
    && (p.dependencyOverrides.Some? ==> |p.dependencyOverrides.value| > 0)
    && (p.flutter.Some? ==> |p.flutter.value| > 0)
  }

  /** `Pubspec.__init__`: scalar attributes are kept as given, collections are kept
      only when non-empty. */
  function NewPubspec(
    name: string, version: Option<Version>, publishTo: Option<string>, author: Option<string>,
    authors: Option<seq<string>>, environment: Option<map<string, VersionConstraint>>,
    homepage: Option<string>, repository: Option<string>, issueTracker: Option<string>,
    funding: Option<seq<string>>, topics: Option<seq<string>>, screenshots: Option<seq<Screenshot>>,
    documentation: Option<string>, description: Option<string>,
    dependencies: Option<map<string, Dependency>>, devDependencies: Option<map<string, Dependency>>,
    dependencyOverrides: Option<map<string, Dependency>>, flutter: Option<seq<(string, Raw)>>): (p: Pubspec)
    ensures IsNormalised(p)
    ensures p.name == name && p.version == version && p.publishTo == publishTo && p.author == author
    ensures p.homepage == homepage && p.repository == repository && p.issueTracker == issueTracker
    ensures p.documentation == documentation && p.description == description
    ensures p.authors == TupleIfTruthy(authors) && p.funding == TupleIfTruthy(funding) && p.topics == TupleIfTruthy(topics)
    ensures p.screenshots == TupleIfTruthy(screenshots) && p.flutter == TupleIfTruthy(flutter)
    ensures p.environment == FrozenDictIfTruthy(environment)
    ensures p.dependencies == FrozenDictIfTruthy(dependencies)
    ensures p.devDependencies == FrozenDictIfTruthy(devDependencies)
    ensures p.dependencyOverrides == FrozenDictIfTruthy(dependencyOverrides)
  {
    Pubspec(name, version, publishTo, author, TupleIfTruthy(authors), FrozenDictIfTruthy(environment),
      homepage, repository, issueTracker, TupleIfTruthy(funding), TupleIfTruthy(topics), TupleIfTruthy(screenshots),
      documentation, description, FrozenDictIfTruthy(dependencies), FrozenDictIfTruthy(devDependencies),
      FrozenDictIfTruthy(dependencyOverrides), TupleIfTruthy(flutter))
  }

  /** The keyword parameters of `Pubspec.__init__`, in their manifest spelling. */
  const FieldNames: set<string> := {
    "name", "version", "publish_to", "author", "authors", "environment", "homepage",
    "repository", "issue_tracker", "funding", "topics", "screenshots", "documentation",
    "description", "dependencies", "dev_dependencies", "dependency_overrides", "flutter"}

  /** The other names of the class dictionary once their leading underscores are stripped
      (`__module__`, `__doc__`, `__init__`): they pass the key filter but name no parameter. */
  const SpecialNames: set<string> := {"module__", "doc__", "init__"}

  /** The names the key filter keeps. */
  const FilterNames: set<string> := FieldNames + SpecialNames

  /** The three dependency blocks, in the order the parser converts them. */
  const DependencyKeys: seq<string> := ["dependencies", "dev_dependencies", "dependency_overrides"]

  /** A keyword argument: a raw value copied from the manifest, or one of the typed
      values the parser put in its place. */
  datatype Field =
    | Untyped(raw: Raw)
    | VersionField(parsedVersion: Version)
    | ConstraintsField(constraints: map<string, VersionConstraint>)
    | ScreenshotsField(shots: seq<Screenshot>)
    | DependenciesField(deps: map<string, Dependency>)

  datatype ParseError =
    | UnexpectedKeyword                    // a keyword argument that names no parameter
    | MissingName                          // `name` is the one required parameter
    | WrongType(key: string)               // a value of a shape the attribute cannot hold
    | MissingScreenshotKey(key: string)    // a screenshot entry without `description` or `path`
    | BadDependency(cause: DecodeError)    // a dependency entry that does not decode

  /** The value a parameter receives: its keyword argument, or the default `None`. */
  function FieldAt(kwargs: map<string, Field>, key: string): Field {
    if key in kwargs then kwargs[key] else Untyped(Null)
  }

  function StringArg(f: Field, key: string): Result<Option<string>, ParseError> {
    match f
    case Untyped(Null) => Ok(None)
    case Untyped(Str(s)) => Ok(Some(s))
    case _ => Err(WrongType(key))
  }

  /** The strings of a list whose items are all strings. */
  function Strings(items: seq<Raw>): (r: Option<seq<string>>)
    ensures r.Some? <==> forall i | 0 <= i < |items| :: items[i].Str?
    ensures r.Some? ==> |r.value| == |items| && forall i | 0 <= i < |items| :: items[i] == Str(r.value[i])
  {
    if items == [] then Some([])
    else if !items[0].Str? then None
    else
      match Strings(items[1..])
      case None => None
      case Some(rest) => Some([items[0].s] + rest)
  }

  /** A string-list parameter: a falsy argument leaves it absent. */
  function StringsArg(f: Field, key: string): Result<Option<seq<string>>, ParseError> {
    match f
    case Untyped(raw) =>
      if !Truthy(raw) then Ok(None)
      else if raw.List? && Strings(raw.items).Some? then Ok(Strings(raw.items))
      else Err(WrongType(key))
    case _ => Err(WrongType(key))
  }

  function VersionArg(f: Field): Result<Option<Version>, ParseError> {
    match f
    case VersionField(v) => Ok(Some(v))
    case Untyped(raw) => if Truthy(raw) then Err(WrongType("version")) else Ok(None)
    case _ => Err(WrongType("version"))
  }

  function EnvironmentArg(f: Field): Result<Option<map<string, VersionConstraint>>, ParseError> {
    match f
    case ConstraintsField(m) => Ok(Some(m))
    case Untyped(raw) => if Truthy(raw) then Err(WrongType("environment")) else Ok(None)
    case _ => Err(WrongType("environment"))
  }

  function ScreenshotsArg(f: Field): Result<Option<seq<Screenshot>>, ParseError> {
    match f
    case ScreenshotsField(s) => Ok(Some(s))
    case Untyped(raw) => if Truthy(raw) then Err(WrongType("screenshots")) else Ok(None)
    case _ => Err(WrongType("screenshots"))
  }

  function DependenciesArg(f: Field, key: string): Result<Option<map<string, Dependency>>, ParseError> {
    match f
    case DependenciesField(m) => Ok(Some(m))
    case Untyped(raw) => if Truthy(raw) then Err(WrongType(key)) else Ok(None)
    case _ => Err(WrongType(key))
  }

  function FlutterArg(f: Field): Result<Option<seq<(string, Raw)>>, ParseError> {
    match f
    case Untyped(Obj(entries)) => Ok(Some(entries))
    case Untyped(raw) => if Truthy(raw) then Err(WrongType("flutter")) else Ok(None)
    case _ => Err(WrongType("flutter"))
  }

  /** Every parameter but `name` receives a value of a shape its attribute can hold. */
  predicate ArgumentsFit(kwargs: map<string, Field>) {
    UntypedArgumentsOk(kwargs) && ConvertedArgumentsOk(kwargs) && BlockArgumentsOk(kwargs)
  }

  /** The parameters `parse_from_dict` never converts. */
  predicate UntypedArgumentsOk(kwargs: map<string, Field>) {
    && StringArg(FieldAt(kwargs, "publish_to"), "publish_to").Ok?
    && StringArg(FieldAt(kwargs, "author"), "author").Ok?
    && StringArg(FieldAt(kwargs, "homepage"), "homepage").Ok?
    && StringArg(FieldAt(kwargs, "repository"), "repository").Ok?
    && StringArg(FieldAt(kwargs, "issue_tracker"), "issue_tracker").Ok?
    && StringArg(FieldAt(kwargs, "documentation"), "documentation").Ok?
    && StringArg(FieldAt(kwargs, "description"), "description").Ok?
    && StringsArg(FieldAt(kwargs, "authors"), "authors").Ok?
    && StringsArg(FieldAt(kwargs, "funding"), "funding").Ok?
    && StringsArg(FieldAt(kwargs, "topics"), "topics").Ok?
    && FlutterArg(FieldAt(kwargs, "flutter")).Ok?
  }

  /** The parameters converted one by one: `version`, `environment`, `screenshots`. */
  predicate ConvertedArgumentsOk(kwargs: map<string, Field>) {
    && VersionArg(FieldAt(kwargs, "version")).Ok?
    && EnvironmentArg(FieldAt(kwargs, "environment")).Ok?
    && ScreenshotsArg(FieldAt(kwargs, "screenshots")).Ok?
  }

  /** The three dependency blocks. */
  predicate BlockArgumentsOk(kwargs: map<string, Field>) {
    && DependenciesArg(FieldAt(kwargs, "dependencies"), "dependencies").Ok?
    && DependenciesArg(FieldAt(kwargs, "dev_dependencies"), "dev_dependencies").Ok?
    && DependenciesArg(FieldAt(kwargs, "dependency_overrides"), "dependency_overrides").Ok?
  }

  /** The never-converted attributes of `p` hold their arguments. */
  predicate UntypedStored(kwargs: map<string, Field>, p: Pubspec)
    requires UntypedArgumentsOk(kwargs)
  {
    && p.publishTo == StringArg(FieldAt(kwargs, "publish_to"), "publish_to").value
    && p.author == StringArg(FieldAt(kwargs, "author"), "author").value
    && p.homepage == StringArg(FieldAt(kwargs, "homepage"), "homepage").value
    && p.repository == StringArg(FieldAt(kwargs, "repository"), "repository").value
    && p.issueTracker == StringArg(FieldAt(kwargs, "issue_tracker"), "issue_tracker").value
    && p.documentation == StringArg(FieldAt(kwargs, "documentation"), "documentation").value
    && p.description == StringArg(FieldAt(kwargs, "description"), "description").value
    && p.authors == TupleIfTruthy(StringsArg(FieldAt(kwargs, "authors"), "authors").value)
    && p.funding == TupleIfTruthy(StringsArg(FieldAt(kwargs, "funding"), "funding").value)
    && p.topics == TupleIfTruthy(StringsArg(FieldAt(kwargs, "topics"), "topics").value)
    && p.flutter == TupleIfTruthy(FlutterArg(FieldAt(kwargs, "flutter")).value)
  }

  /** The converted attributes of `p` hold their arguments. */
  predicate ConvertedStored(kwargs: map<string, Field>, p: Pubspec)
    requires ConvertedArgumentsOk(kwargs)
  {
    && p.version == VersionArg(FieldAt(kwargs, "version")).value
    && p.environment == FrozenDictIfTruthy(EnvironmentArg(FieldAt(kwargs, "environment")).value)
    && p.screenshots == TupleIfTruthy(ScreenshotsArg(FieldAt(kwargs, "screenshots")).value)
  }

  /** The dependency blocks of `p` hold their arguments. */
  predicate BlocksStored(kwargs: map<string, Field>, p: Pubspec)
    requires BlockArgumentsOk(kwargs)
  {
    && p.dependencies == FrozenDictIfTruthy(DependenciesArg(FieldAt(kwargs, "dependencies"), "dependencies").value)
    && p.devDependencies ==
         FrozenDictIfTruthy(DependenciesArg(FieldAt(kwargs, "dev_dependencies"), "dev_dependencies").value)
    && p.dependencyOverrides ==
         FrozenDictIfTruthy(DependenciesArg(FieldAt(kwargs, "dependency_overrides"), "dependency_overrides").value)
  }

  /** `Pubspec(**kwargs)`: a keyword naming no parameter and a missing `name` are both
      rejected before any attribute is stored; otherwise the record is built from the
      arguments, each parameter missing from them taking its default `None`. */
  function Construct(kwargs: map<string, Field>): (r: Result<Pubspec, ParseError>)
    ensures !(kwargs.Keys <= FieldNames) ==> r == Err(UnexpectedKeyword)
    ensures kwargs.Keys <= FieldNames && "name" !in kwargs ==> r == Err(MissingName)
    ensures r.Ok? <==> (&& kwargs.Keys <= FieldNames && "name" in kwargs
                        && kwargs["name"].Untyped? && kwargs["name"].raw.Str? && ArgumentsFit(kwargs))
    ensures r.Ok? ==> kwargs["name"] == Untyped(Str(r.value.name)) && IsNormalised(r.value)
    ensures r.Ok? ==> UntypedStored(kwargs, r.value) && ConvertedStored(kwargs, r.value)
    ensures r.Ok? ==> BlocksStored(kwargs, r.value)
  {
    if !(kwargs.Keys <= FieldNames) then Err(UnexpectedKeyword)
    else if "name" !in kwargs then Err(MissingName)
    else if !kwargs["name"].Untyped? || !kwargs["name"].raw.Str? then Err(WrongType("name"))
    else
      var version :- VersionArg(FieldAt(kwargs, "version"));
      var publishTo :- StringArg(FieldAt(kwargs, "publish_to"), "publish_to");
      var author :- StringArg(FieldAt(kwargs, "author"), "author");
      var authors :- StringsArg(FieldAt(kwargs, "authors"), "authors");
      var environment :- EnvironmentArg(FieldAt(kwargs, "environment"));
      var homepage :- StringArg(FieldAt(kwargs, "homepage"), "homepage");
      var repository :- StringArg(FieldAt(kwargs, "repository"), "repository");
      var issueTracker :- StringArg(FieldAt(kwargs, "issue_tracker"), "issue_tracker");
      var funding :- StringsArg(FieldAt(kwargs, "funding"), "funding");
      var topics :- StringsArg(FieldAt(kwargs, "topics"), "topics");
      var screenshots :- ScreenshotsArg(FieldAt(kwargs, "screenshots"));
      var documentation :- StringArg(FieldAt(kwargs, "documentation"), "documentation");
      var description :- StringArg(FieldAt(kwargs, "description"), "description");
      var dependencies :- DependenciesArg(FieldAt(kwargs, "dependencies"), "dependencies");
      var devDependencies :- DependenciesArg(FieldAt(kwargs, "dev_dependencies"), "dev_dependencies");
      var dependencyOverrides :- DependenciesArg(FieldAt(kwargs, "dependency_overrides"), "dependency_overrides");
      var flutter :- FlutterArg(FieldAt(kwargs, "flutter"));
      Ok(NewPubspec(kwargs["name"].raw.s, version, publishTo, author, authors, environment,
        homepage, repository, issueTracker, funding, topics, screenshots, documentation,
        description, dependencies, devDependencies, dependencyOverrides, flutter))
  }

  // ---------------------------------------------------------------------------
  // Conversions done by parse_from_dict
  // ---------------------------------------------------------------------------

  /** `parse_version_set(v)` on one value of the `environment` map. */
  function ConstraintOf(v: Raw): Result<VersionConstraint, ParseError> {
    if v.Str? then Ok(ParseVersionSet(v.s)) else Err(WrongType("environment"))
  }

  /** `{k: parse_version_set(v) for k, v in dict(env).items()}`: every SDK name of the
      section mapped to its parsed constraint; a value that is not a string fails it. */
  function ConvertEnvironment(entries: seq<(string, Raw)>): (r: Result<map<string, VersionConstraint>, ParseError>)
    ensures r.Ok? <==> forall i | 0 <= i < |entries| :: entries[i].1.Str?
    ensures r.Ok? ==> r.value.Keys == Keys(entries)
    ensures r.Ok? ==> forall i | 0 <= i < |entries| && LastWithKey(entries, i) ::
      entries[i].1.Str? && r.value[entries[i].0] == ParseVersionSet(entries[i].1.s)
    ensures r.Err? ==> r == Err(WrongType("environment"))
  {
    MapEntries(entries, ConstraintOf)
  }

  /** `PubspecScreenshot(i["description"], i["path"])` for one entry of the list. */
  function ScreenshotOf(item: Raw): (r: Result<Screenshot, ParseError>)
    ensures r.Ok? <==> (item.Obj? && Get(item.entries, "description").Str? && Get(item.entries, "path").Str?)
    ensures r.Ok? ==> r.value == Screenshot(Get(item.entries, "description").s, Get(item.entries, "path").s)
    ensures item.Obj? && "description" !in Keys(item.entries) ==> r == Err(MissingScreenshotKey("description"))
    ensures item.Obj? && "description" in Keys(item.entries) && "path" !in Keys(item.entries) ==>
      r == Err(MissingScreenshotKey("path"))
  {
    match item
    case Obj(entries) =>
      if "description" !in Keys(entries) then Err(MissingScreenshotKey("description"))
      else if "path" !in Keys(entries) then Err(MissingScreenshotKey("path"))
      else
        var description := Get(entries, "description");
        var path := Get(entries, "path");
        if description.Str? && path.Str? then Ok(Screenshot(description.s, path.s))
        else Err(WrongType("screenshots"))
    case _ => Err(WrongType("screenshots"))
  }

  /** The list comprehension over the screenshot entries: one screenshot per entry, in
      order; the first entry that fails fails the list. */
  function ConvertScreenshots(items: seq<Raw>): (r: Result<seq<Screenshot>, ParseError>)
    ensures r.Ok? <==> forall i | 0 <= i < |items| :: ScreenshotOf(items[i]).Ok?
    ensures r.Ok? ==> |r.value| == |items| && forall i | 0 <= i < |items| :: ScreenshotOf(items[i]) == Ok(r.value[i])
    ensures r.Err? ==> exists i | 0 <= i < |items| ::
      (ScreenshotOf(items[i]) == Err(r.error) && forall j | 0 <= j < i :: ScreenshotOf(items[j]).Ok?)
  {
    if items == [] then Ok([])
    else
      var first := ScreenshotOf(items[0]);
      if first.Err? then
        Err(first.error)
      else
        var rest := ConvertScreenshots(items[1..]);
        if rest.Err? then
          var i :| 0 <= i < |items[1..]| && ScreenshotOf(items[1..][i]) == Err(rest.error)
            && forall j | 0 <= j < i :: ScreenshotOf(items[1..][j]).Ok?;
          assert ScreenshotOf(items[i + 1]) == Err(rest.error);
          assert forall j | 0 <= j < i + 1 :: ScreenshotOf(items[j]).Ok? by {
            forall j | 0 <= j < i + 1 ensures ScreenshotOf(items[j]).Ok? {
              if j > 0 { assert items[j] == items[1..][j - 1]; }
            }
          }
          Err(rest.error)
        else
          Ok([first.value] + rest.value)
  }

  // ---------------------------------------------------------------------------
  // parse_from_dict
  // ---------------------------------------------------------------------------

  /** The filtering comprehension over the manifest's items: the entries whose key the
      filter keeps, keys and values as they are. */
  function KnownFields(json: seq<(string, Raw)>): (r: map<string, Raw>)
    ensures r.Keys == FilterNames * Keys(json)
    ensures forall k | k in r :: r[k] == Get(json, k)
  {
    map k | k in FilterNames * Keys(json) :: Get(json, k)
  }

  /** `json_data.get(key)` once the filter has run. */
  function DataAt(data: map<string, Raw>, key: string): Raw {
    if key in data then data[key] else Null
  }

  /** `json_data.update(pending_update)`: converted values replace the raw ones. */
  function Update(data: map<string, Raw>, pending: map<string, Field>): (r: map<string, Field>)
    ensures r.Keys == data.Keys + pending.Keys
    ensures forall k | k in pending :: r[k] == pending[k]
    ensures forall k | k in data && k !in pending :: r[k] == Untyped(data[k])
  {
    map k | k in data.Keys + pending.Keys :: if k in pending then pending[k] else Untyped(data[k])
  }

  /** A string attribute: absent and `None` store nothing. */
  predicate StringValue(v: Raw) { v.Null? || v.Str? }

  function StringOf(v: Raw): Option<string> {
    if v.Str? then Some(v.s) else None
  }

  /** A string-list attribute: a falsy value stores nothing, anything else must be a
      list of strings. */
  predicate StringsValue(v: Raw) { !Truthy(v) || (v.List? && Strings(v.items).Some?) }

  function StringsOf(v: Raw): Option<seq<string>> {
    if Truthy(v) && v.List? then Strings(v.items) else None
  }

  /** What the manifest must hold for `parse_from_dict` to return a record: no key that
      passes the filter without naming a parameter, a string `name`, and a value of the
      right shape for every other field. */
  predicate Acceptable(json: seq<(string, Raw)>) {
    && SpecialNames * Keys(json) == {}
    && Get(json, "name").Str?
    && UntypedValuesFit(json) && ConvertedValuesFit(json) && BlocksFit(json)
  }

  predicate UntypedValuesFit(json: seq<(string, Raw)>) {
    && StringValue(Get(json, "publish_to")) && StringValue(Get(json, "author"))
    && StringValue(Get(json, "homepage")) && StringValue(Get(json, "repository"))
    && StringValue(Get(json, "issue_tracker")) && StringValue(Get(json, "documentation"))
    && StringValue(Get(json, "description"))
    && StringsValue(Get(json, "authors")) && StringsValue(Get(json, "funding"))
    && StringsValue(Get(json, "topics"))
    && (Truthy(Get(json, "flutter")) ==> Get(json, "flutter").Obj?)
  }

  /** A truthy `version` is a string, a truthy `environment` a map of strings and a truthy
      `screenshots` a list of screenshot entries. */
  predicate ConvertedValuesFit(json: seq<(string, Raw)>) {
    var version := Get(json, "version");
    var environment := Get(json, "environment");
    var screenshots := Get(json, "screenshots");
    && (Truthy(version) ==> version.Str?)
    && (Truthy(environment) ==> environment.Obj? && ConvertEnvironment(environment.entries).Ok?)
    && (Truthy(screenshots) ==> screenshots.List? && ConvertScreenshots(screenshots.items).Ok?)
  }

  /** A falsy dependency block, or one whose every entry decodes. */
  predicate BlockFits(json: seq<(string, Raw)>, key: string) {
    var v := Get(json, key);
    Truthy(v) ==> v.Obj? && DecodeDependencies(v.entries).Ok?
  }

  predicate BlocksFit(json: seq<(string, Raw)>) {
    BlockFits(json, "dependencies") && BlockFits(json, "dev_dependencies") && BlockFits(json, "dependency_overrides")
  }

  /** The error of the first of `version`, `environment` and `screenshots` that does not
      fit: a value of the wrong shape, or the error its conversion raises. */
  function ScalarError(json: seq<(string, Raw)>): ParseError
    requires !ConvertedValuesFit(json)
  {
    var version := Get(json, "version");
    var environment := Get(json, "environment");
    var screenshots := Get(json, "screenshots");
    if Truthy(version) && !version.Str? then WrongType("version")
    else if Truthy(environment) && !environment.Obj? then WrongType("environment")
    else if Truthy(environment) && ConvertEnvironment(environment.entries).Err? then
      ConvertEnvironment(environment.entries).error
    else if !screenshots.List? then WrongType("screenshots")
    else ConvertScreenshots(screenshots.items).error
  }

  /** The error of a dependency block that does not fit: a block that is not a map, or
      the decoding error of its first entry that fails, passed through. */
  function BlockError(json: seq<(string, Raw)>, key: string): ParseError
    requires !BlockFits(json, key)
  {
    var v := Get(json, key);
    if !v.Obj? then WrongType(key) else BadDependency(DecodeDependencies(v.entries).error)
  }

  /** The error of the first dependency block, in the parser's order, that does not fit. */
  function FirstBlockError(json: seq<(string, Raw)>): ParseError
    requires !BlocksFit(json)
  {
    if !BlockFits(json, "dependencies") then BlockError(json, "dependencies")
    else if !BlockFits(json, "dev_dependencies") then BlockError(json, "dev_dependencies")
    else BlockError(json, "dependency_overrides")
  }

  /** The record `parse_from_dict` builds from an acceptable manifest, attribute by
      attribute. */
  predicate Describes(json: seq<(string, Raw)>, p: Pubspec)
    requires Acceptable(json)
  {
    && Get(json, "name") == Str(p.name)
    && UntypedDescribed(json, p) && ConvertedDescribed(json, p) && BlocksDescribed(json, p)
  }

  /** Strings and string lists as the manifest gives them, a falsy list stored as absent. */
  predicate UntypedDescribed(json: seq<(string, Raw)>, p: Pubspec) {
    && p.publishTo == StringOf(Get(json, "publish_to")) && p.author == StringOf(Get(json, "author"))
    && p.homepage == StringOf(Get(json, "homepage")) && p.repository == StringOf(Get(json, "repository"))
    && p.issueTracker == StringOf(Get(json, "issue_tracker"))
    && p.documentation == StringOf(Get(json, "documentation"))
    && p.description == StringOf(Get(json, "description"))
    && p.authors == StringsOf(Get(json, "authors")) && p.funding == StringsOf(Get(json, "funding"))
    && p.topics == StringsOf(Get(json, "topics"))
    && p.flutter == (if Truthy(Get(json, "flutter")) && Get(json, "flutter").Obj? then Some(Get(json, "flutter").entries) else None)
  }

  /** A truthy value parsed, a falsy one stored as absent. */
  predicate ConvertedDescribed(json: seq<(string, Raw)>, p: Pubspec)
    requires ConvertedValuesFit(json)
  {
    var version := Get(json, "version");
    var environment := Get(json, "environment");
    var screenshots := Get(json, "screenshots");
    && p.version == (if Truthy(version) then Some(ParseVersion(version.s)) else None)
    && p.environment == (if Truthy(environment) then Some(ConvertEnvironment(environment.entries).value) else None)
    && p.screenshots == (if Truthy(screenshots) then Some(ConvertScreenshots(screenshots.items).value) else None)
  }

  /** The dependency block stored under `key`: absent when the manifest's block is falsy,
      its decoding otherwise. */
  predicate BlockDescribed(json: seq<(string, Raw)>, key: string, stored: Option<map<string, Dependency>>)
    requires BlockFits(json, key)
  {
    var v := Get(json, key);
    stored == if Truthy(v) then Some(DecodeDependencies(v.entries).value) else None
  }

  predicate BlocksDescribed(json: seq<(string, Raw)>, p: Pubspec)
    requires BlocksFit(json)
  {
    && BlockDescribed(json, "dependencies", p.dependencies)
    && BlockDescribed(json, "dev_dependencies", p.devDependencies)
    && BlockDescribed(json, "dependency_overrides", p.dependencyOverrides)
  }

  // Proof of parse_from_dict, group by group.

  /** The keys `parse_from_dict` converts before construction. */
  const ConvertedNames: set<string> :=
    {"version", "environment", "screenshots", "dependencies", "dev_dependencies", "dependency_overrides"}

  /** Every parameter that is never converted receives the manifest's raw value. */
  predicate UntypedArguments(json: seq<(string, Raw)>, kwargs: map<string, Field>) {
    StringArguments(json, kwargs) && ListArguments(json, kwargs)
  }

  /** The string parameters receive the manifest's raw values. */
  predicate StringArguments(json: seq<(string, Raw)>, kwargs: map<string, Field>) {
    && FieldAt(kwargs, "publish_to") == Untyped(Get(json, "publish_to"))
    && FieldAt(kwargs, "author") == Untyped(Get(json, "author"))
    && FieldAt(kwargs, "homepage") == Untyped(Get(json, "homepage"))
    && FieldAt(kwargs, "repository") == Untyped(Get(json, "repository"))
    && FieldAt(kwargs, "issue_tracker") == Untyped(Get(json, "issue_tracker"))
    && FieldAt(kwargs, "documentation") == Untyped(Get(json, "documentation"))
    && FieldAt(kwargs, "description") == Untyped(Get(json, "description"))
  }

  /** The list and map parameters that are never converted receive the manifest's raw values. */
  predicate ListArguments(json: seq<(string, Raw)>, kwargs: map<string, Field>) {
    && FieldAt(kwargs, "authors") == Untyped(Get(json, "authors"))
    && FieldAt(kwargs, "funding") == Untyped(Get(json, "funding"))
    && FieldAt(kwargs, "topics") == Untyped(Get(json, "topics"))
    && FieldAt(kwargs, "flutter") == Untyped(Get(json, "flutter"))
  }

  /** The keywords `parse_from_dict` hands to the constructor are the manifest's filtered
      keys and the converted ones; `name` is passed as the manifest gives it. */
  lemma KeywordsOfManifest(json: seq<(string, Raw)>, pending: map<string, Field>)
    requires pending.Keys <= ConvertedNames
    ensures var kwargs := Update(KnownFields(json), pending);
      && (kwargs.Keys <= FieldNames <==> SpecialNames * Keys(json) == {})
      && ("name" in kwargs <==> "name" in Keys(json))
      && ("name" in kwargs ==> kwargs["name"] == Untyped(Get(json, "name")))
  {
    KeywordsWithinFields(json, pending);
    assert "name" !in ConvertedNames;
  }

  /** The keywords name parameters only exactly when no special name passed the filter. */
  lemma KeywordsWithinFields(json: seq<(string, Raw)>, pending: map<string, Field>)
    requires pending.Keys <= ConvertedNames
    ensures Update(KnownFields(json), pending).Keys <= FieldNames <==> SpecialNames * Keys(json) == {}
  {
    var kwargs := Update(KnownFields(json), pending);
    NameSetsDisjoint();
    if SpecialNames * Keys(json) != {} {
      var k :| k in SpecialNames * Keys(json);
      assert k in kwargs;
    } else {
      forall k | k in kwargs ensures k in FieldNames {
        if k !in pending {
          assert k in FilterNames && k in Keys(json);
        }
      }
    }
  }

  /** Every converted name is a parameter, and no special name is. */
  lemma NameSetsDisjoint()
    ensures ConvertedNames <= FieldNames
    ensures SpecialNames * FieldNames == {}
  {
  }

  /** A parameter that is never converted receives the manifest's raw value, `None` when
      the manifest has no such key. */
  lemma UnconvertedArgument(json: seq<(string, Raw)>, pending: map<string, Field>, key: string)
    requires pending.Keys <= ConvertedNames
    requires key in FieldNames && key !in ConvertedNames
    ensures FieldAt(Update(KnownFields(json), pending), key) == Untyped(Get(json, key))
  {
  }

  /** A converted parameter receives the converted value when there is one, and the
      manifest's raw value otherwise. */
  lemma ConvertedArgument(json: seq<(string, Raw)>, pending: map<string, Field>, key: string)
    requires key in ConvertedNames
    ensures FieldAt(Update(KnownFields(json), pending), key) ==
      if key in pending then pending[key] else Untyped(Get(json, key))
  {
  }

  /** Every parameter that is never converted receives the manifest's raw value. */
  lemma UntypedArgumentsOfManifest(json: seq<(string, Raw)>, pending: map<string, Field>)
    requires pending.Keys <= ConvertedNames
    ensures UntypedArguments(json, Update(KnownFields(json), pending))
  {
    StringArgumentsOfManifest(json, pending);
    ListArgumentsOfManifest(json, pending);
  }

  lemma StringArgumentsOfManifest(json: seq<(string, Raw)>, pending: map<string, Field>)
    requires pending.Keys <= ConvertedNames
    ensures StringArguments(json, Update(KnownFields(json), pending))
  {
    UnconvertedArgument(json, pending, "publish_to");
    UnconvertedArgument(json, pending, "author");
    UnconvertedArgument(json, pending, "homepage");
    UnconvertedArgument(json, pending, "repository");
    UnconvertedArgument(json, pending, "issue_tracker");
    UnconvertedArgument(json, pending, "documentation");
    UnconvertedArgument(json, pending, "description");
  }

  lemma ListArgumentsOfManifest(json: seq<(string, Raw)>, pending: map<string, Field>)
    requires pending.Keys <= ConvertedNames
    ensures ListArguments(json, Update(KnownFields(json), pending))
  {
    UnconvertedArgument(json, pending, "authors");
    UnconvertedArgument(json, pending, "funding");
    UnconvertedArgument(json, pending, "topics");
    UnconvertedArgument(json, pending, "flutter");
  }

  /** The never-converted parameters fit exactly when their manifest values do, and then
      hold what the manifest says. */
  lemma UntypedArgumentsFit(json: seq<(string, Raw)>, kwargs: map<string, Field>, p: Pubspec)
    requires UntypedArguments(json, kwargs)
    ensures UntypedArgumentsOk(kwargs) == UntypedValuesFit(json)
    ensures UntypedArgumentsOk(kwargs) && UntypedStored(kwargs, p) ==> UntypedDescribed(json, p)
  {
    StringArgOfValue(Get(json, "publish_to"), "publish_to");
    StringArgOfValue(Get(json, "author"), "author");
    StringArgOfValue(Get(json, "homepage"), "homepage");
    StringArgOfValue(Get(json, "repository"), "repository");
    StringArgOfValue(Get(json, "issue_tracker"), "issue_tracker");
    StringArgOfValue(Get(json, "documentation"), "documentation");
    StringArgOfValue(Get(json, "description"), "description");
    StringsArgOfValue(Get(json, "authors"), "authors");
    StringsArgOfValue(Get(json, "funding"), "funding");
    StringsArgOfValue(Get(json, "topics"), "topics");
    FlutterArgOfValue(Get(json, "flutter"));
  }

  /** A string parameter given a manifest value fits exactly when the value is a string
      or null, and then holds its string. */
  lemma StringArgOfValue(v: Raw, key: string)
    ensures StringArg(Untyped(v), key).Ok? == StringValue(v)
    ensures StringValue(v) ==> StringArg(Untyped(v), key).value == StringOf(v)
  {
  }

  /** A string-list parameter given a manifest value fits exactly when the value is falsy
      or a list of strings, and then stores those strings when there are any. */
  lemma StringsArgOfValue(v: Raw, key: string)
    ensures StringsArg(Untyped(v), key).Ok? == StringsValue(v)
    ensures StringsValue(v) ==> TupleIfTruthy(StringsArg(Untyped(v), key).value) == StringsOf(v)
  {
  }

  /** The `flutter` parameter fits exactly when a truthy value is a map, and then stores
      its entries when there are any. */
  lemma FlutterArgOfValue(v: Raw)
    ensures FlutterArg(Untyped(v)).Ok? == (Truthy(v) ==> v.Obj?)
    ensures (Truthy(v) ==> v.Obj?) ==>
      TupleIfTruthy(FlutterArg(Untyped(v)).value) == (if Truthy(v) && v.Obj? then Some(v.entries) else None)
  {
  }

  /** `pending_update` after the `version`, `environment` and `screenshots` steps: each
      truthy value has been converted, and no falsy one is pending. */
  predicate PendingScalars(json: seq<(string, Raw)>, pending: map<string, Field>) {
    var version := Get(json, "version");
    var environment := Get(json, "environment");
    var screenshots := Get(json, "screenshots");
    && ("version" in pending <==> Truthy(version))
    && ("version" in pending ==>
          version.Str? && pending["version"] == VersionField(ParseVersion(version.s)))
    && ("environment" in pending <==> Truthy(environment))
    && ("environment" in pending ==>
          && environment.Obj? && ConvertEnvironment(environment.entries).Ok?
          && pending["environment"] == ConstraintsField(ConvertEnvironment(environment.entries).value))
    && ("screenshots" in pending <==> Truthy(screenshots))
    && ("screenshots" in pending ==>
          && screenshots.List? && ConvertScreenshots(screenshots.items).Ok?
          && pending["screenshots"] == ScreenshotsField(ConvertScreenshots(screenshots.items).value))
  }

  /** The converted parameters, once converted, fit and hold what the manifest describes. */
  lemma ConvertedArgumentsFit(json: seq<(string, Raw)>, pending: map<string, Field>, kwargs: map<string, Field>, p: Pubspec)
    requires PendingScalars(json, pending)
    requires FieldAt(kwargs, "version") ==
      if "version" in pending then pending["version"] else Untyped(Get(json, "version"))
    requires FieldAt(kwargs, "environment") ==
      if "environment" in pending then pending["environment"] else Untyped(Get(json, "environment"))
    requires FieldAt(kwargs, "screenshots") ==
      if "screenshots" in pending then pending["screenshots"] else Untyped(Get(json, "screenshots"))
    ensures ConvertedValuesFit(json) && ConvertedArgumentsOk(kwargs)
    ensures ConvertedStored(kwargs, p) ==> ConvertedDescribed(json, p)
  {
    var environment := Get(json, "environment");
    if Truthy(environment) {
      KeysNonEmpty(environment.entries);
    }
  }

  /** A non-empty dict has a key. */
  lemma KeysNonEmpty(entries: seq<(string, Raw)>)
    requires entries != []
    ensures |Keys(entries)| > 0
  {
    assert entries[0].0 in Keys(entries);
  }

  /** `pending_update` after the step for the dependency block `key`. */
  predicate PendingBlock(json: seq<(string, Raw)>, pending: map<string, Field>, key: string) {
    var v := Get(json, key);
    && (key in pending <==> Truthy(v))
    && (key in pending ==>
          && v.Obj? && DecodeDependencies(v.entries).Ok?
          && pending[key] == DependenciesField(DecodeDependencies(v.entries).value))
  }

  /** The keys pending before the step for block `k`. */
  predicate PendingBefore(pending: map<string, Field>, k: int)
    requires 0 <= k <= |DependencyKeys|
  {
    pending.Keys <= {"version", "environment", "screenshots"} + set j | 0 <= j < k :: DependencyKeys[j]
  }

  /** Converting a dependency block leaves the scalar conversions as they were. */
  lemma PendingScalarsFrame(json: seq<(string, Raw)>, pending: map<string, Field>, key: string, f: Field)
    requires key != "version" && key != "environment" && key != "screenshots"
    requires PendingScalars(json, pending)
    ensures PendingScalars(json, pending[key := f])
  {
  }

  /** Converting a dependency block leaves the other blocks' conversions as they were. */
  lemma PendingBlockFrame(json: seq<(string, Raw)>, pending: map<string, Field>, other: string, key: string, f: Field)
    requires key != other && PendingBlock(json, pending, other)
    ensures PendingBlock(json, pending[key := f], other)
  {
  }

  /** The loop over the dependency blocks keeps the earlier conversions and adds block
      `k`'s when it is truthy. */
  lemma PendingBlockStep(json: seq<(string, Raw)>, pending: map<string, Field>, k: int, next: map<string, Field>)
    requires 0 <= k < |DependencyKeys|
    requires PendingBefore(pending, k) && PendingScalars(json, pending)
    requires forall j | 0 <= j < k :: PendingBlock(json, pending, DependencyKeys[j])
    requires var key := DependencyKeys[k]; var v := Get(json, key);
      if Truthy(v) then
        v.Obj? && DecodeDependencies(v.entries).Ok?
        && next == pending[key := DependenciesField(DecodeDependencies(v.entries).value)]
      else next == pending
    ensures PendingBefore(next, k + 1) && PendingScalars(json, next)
    ensures forall j | 0 <= j < k + 1 :: PendingBlock(json, next, DependencyKeys[j])
  {
    var key := DependencyKeys[k];
    var earlier := set j | 0 <= j < k :: DependencyKeys[j];
    if k == 0 {
      assert key == "dependencies" && earlier == {};
    } else if k == 1 {
      assert key == "dev_dependencies";
      assert earlier == {"dependencies"} by {
        assert DependencyKeys[0] in earlier;
      }
    } else {
      assert key == "dependency_overrides";
      assert earlier == {"dependencies", "dev_dependencies"} by {
        assert DependencyKeys[0] in earlier && DependencyKeys[1] in earlier;
      }
    }
    assert key !in pending;
    assert (set j | 0 <= j < k + 1 :: DependencyKeys[j]) == earlier + {key};
    if next != pending {
      var f := next[key];
      PendingScalarsFrame(json, pending, key, f);
      forall j | 0 <= j < k ensures PendingBlock(json, next, DependencyKeys[j]) {
        PendingBlockFrame(json, pending, DependencyKeys[j], key, f);
      }
    }
  }

  /** One converted dependency block fits and holds its decoding. */
  lemma BlockArgumentFits(json: seq<(string, Raw)>, pending: map<string, Field>, kwargs: map<string, Field>,
                          key: string, stored: Option<map<string, Dependency>>)
    requires PendingBlock(json, pending, key)
    requires FieldAt(kwargs, key) == if key in pending then pending[key] else Untyped(Get(json, key))
    ensures BlockFits(json, key) && DependenciesArg(FieldAt(kwargs, key), key).Ok?
    ensures stored == FrozenDictIfTruthy(DependenciesArg(FieldAt(kwargs, key), key).value) ==>
      BlockDescribed(json, key, stored)
  {
    var v := Get(json, key);
    if Truthy(v) {
      KeysNonEmpty(v.entries);
    }
  }

  /** Constructing from the filtered manifest updated with every conversion gives a record
      exactly when the manifest is acceptable, and then the record it describes. */
  lemma ConstructFromManifest(json: seq<(string, Raw)>, pending: map<string, Field>)
    requires pending.Keys <= ConvertedNames
    requires PendingScalars(json, pending)
    requires PendingBlock(json, pending, "dependencies")
    requires PendingBlock(json, pending, "dev_dependencies")
    requires PendingBlock(json, pending, "dependency_overrides")
    ensures var r := Construct(Update(KnownFields(json), pending));
      && (r.Ok? <==> Acceptable(json))
      && (r.Ok? ==> IsNormalised(r.value) && Describes(json, r.value))
  {
    var kwargs := Update(KnownFields(json), pending);
    var r := Construct(kwargs);
    var p := if r.Ok? then r.value else NewPubspec("", None, None, None, None, None, None, None,
      None, None, None, None, None, None, None, None, None, None);
    KeywordsOfManifest(json, pending);
    UntypedArgumentsOfManifest(json, pending);
    ConvertedArgument(json, pending, "version");
    ConvertedArgument(json, pending, "environment");
    ConvertedArgument(json, pending, "screenshots");
    ConvertedArgument(json, pending, "dependencies");
    ConvertedArgument(json, pending, "dev_dependencies");
    ConvertedArgument(json, pending, "dependency_overrides");
    UntypedArgumentsFit(json, kwargs, p);
    ConvertedArgumentsFit(json, pending, kwargs, p);
    BlockArgumentFits(json, pending, kwargs, "dependencies", p.dependencies);
    BlockArgumentFits(json, pending, kwargs, "dev_dependencies", p.devDependencies);
    BlockArgumentFits(json, pending, kwargs, "dependency_overrides", p.dependencyOverrides);
  }

  /** After the loop, every dependency block is pending exactly when it is truthy. */
  lemma AllBlocksPending(json: seq<(string, Raw)>, pending: map<string, Field>)
    requires forall j | 0 <= j < |DependencyKeys| :: PendingBlock(json, pending, DependencyKeys[j])
    ensures PendingBlock(json, pending, "dependencies")
    ensures PendingBlock(json, pending, "dev_dependencies")
    ensures PendingBlock(json, pending, "dependency_overrides")
  {
    assert PendingBlock(json, pending, DependencyKeys[0]);
    assert PendingBlock(json, pending, DependencyKeys[1]);
    assert PendingBlock(json, pending, DependencyKeys[2]);
  }

  /** A field the filter keeps reads back as the manifest's value. */
  lemma FilteredField(json: seq<(string, Raw)>, key: string)
    requires key in FieldNames
    ensures DataAt(KnownFields(json), key) == Get(json, key)
  {
  }

  /** The same, for the dependency block the loop's step `k` reads. */
  lemma BlockFiltered(json: seq<(string, Raw)>, k: int)
    requires 0 <= k < |DependencyKeys|
    ensures DataAt(KnownFields(json), DependencyKeys[k]) == Get(json, DependencyKeys[k])
  {
    if k == 0 { FilteredField(json, "dependencies"); }
    else if k == 1 { FilteredField(json, "dev_dependencies"); }
    else { FilteredField(json, "dependency_overrides"); }
  }

  /** A manifest whose dependency block `k` does not fit, after blocks that were all
      converted, has blocks that do not fit, and block `k`'s error is the first. */
  lemma UnfitBlockRejected(json: seq<(string, Raw)>, pending: map<string, Field>, k: int)
    requires 0 <= k < |DependencyKeys| && !BlockFits(json, DependencyKeys[k])
    requires forall j | 0 <= j < k :: PendingBlock(json, pending, DependencyKeys[j])
    ensures !BlocksFit(json) && FirstBlockError(json) == BlockError(json, DependencyKeys[k])
  {
    if k == 0 {
      assert !BlockFits(json, "dependencies");
    } else if k == 1 {
      assert PendingBlock(json, pending, DependencyKeys[0]);
      assert !BlockFits(json, "dev_dependencies");
    } else {
      assert PendingBlock(json, pending, DependencyKeys[0]);
      assert PendingBlock(json, pending, DependencyKeys[1]);
      assert !BlockFits(json, "dependency_overrides");
    }
  }

  /** The first conversions of `parse_from_dict`: a truthy `version` is parsed, a truthy
      `environment` has each constraint parsed and a truthy `screenshots` list has each
      entry built into a screenshot. It succeeds exactly when those three values fit, and
      then exactly the truthy ones are pending, each with its conversion. */
  method PendingScalarConversions(json: seq<(string, Raw)>, data: map<string, Raw>)
    returns (r: Result<map<string, Field>, ParseError>)
    requires data == KnownFields(json)
    ensures r.Ok? <==> ConvertedValuesFit(json)
    ensures !ConvertedValuesFit(json) ==> r == Err(ScalarError(json))
    ensures r.Ok? ==> r.value.Keys <= {"version", "environment", "screenshots"} && PendingScalars(json, r.value)
  {
    var pending: map<string, Field> := map[];

    var verRaw := DataAt(data, "version");
    FilteredField(json, "version");
    if Truthy(verRaw) {
      if !verRaw.Str? {
        return Err(WrongType("version"));
      }
      pending := pending["version" := VersionField(ParseVersion(verRaw.s))];
    }

    var envRaw := DataAt(data, "environment");
    FilteredField(json, "environment");
    if Truthy(envRaw) {
      if !envRaw.Obj? {
        return Err(WrongType("environment"));
      }
      var env := ConvertEnvironment(envRaw.entries);
      if env.Err? {
        return Err(env.error);
      }
      pending := pending["environment" := ConstraintsField(env.value)];
    }

    var scRaw := DataAt(data, "screenshots");
    FilteredField(json, "screenshots");
    if Truthy(scRaw) {
      if !scRaw.List? {
        return Err(WrongType("screenshots"));
      }
      var shots := ConvertScreenshots(scRaw.items);
      if shots.Err? {
        return Err(shots.error);
      }
      pending := pending["screenshots" := ScreenshotsField(shots.value)];
    }
    return Ok(pending);
  }

  /** The loop of `parse_from_dict` over the three dependency blocks: each truthy block is
      decoded and added to the pending conversions. It succeeds exactly when every block
      fits, and then each block is pending exactly when it is truthy, with its decoding,
      while the earlier conversions are kept. */
  method PendingBlockConversions(json: seq<(string, Raw)>, data: map<string, Raw>, scalars: map<string, Field>)
    returns (r: Result<map<string, Field>, ParseError>)
    requires data == KnownFields(json)
    requires scalars.Keys <= {"version", "environment", "screenshots"} && PendingScalars(json, scalars)
    ensures r.Ok? <==> BlocksFit(json)
    ensures !BlocksFit(json) ==> r == Err(FirstBlockError(json))
    ensures r.Ok? ==> r.value.Keys <= ConvertedNames && PendingScalars(json, r.value)
    ensures r.Ok? ==> (PendingBlock(json, r.value, "dependencies")
                       && PendingBlock(json, r.value, "dev_dependencies")
                       && PendingBlock(json, r.value, "dependency_overrides"))
  {
    var pending := scalars;
    assert PendingBefore(pending, 0);
    for k := 0 to |DependencyKeys|
      invariant PendingBefore(pending, k) && PendingScalars(json, pending)
      invariant forall j | 0 <= j < k :: PendingBlock(json, pending, DependencyKeys[j])
    {
      var key := DependencyKeys[k];
      var depsRaw := DataAt(data, key);
      BlockFiltered(json, k);
      var next := pending;
      if Truthy(depsRaw) {
        if !depsRaw.Obj? {
          UnfitBlockRejected(json, pending, k);
          return Err(WrongType(key));
        }
        var deps := DecodeDependencies(depsRaw.entries);
        if deps.Err? {
          UnfitBlockRejected(json, pending, k);
          return Err(BadDependency(deps.error));
        }
        next := pending[key := DependenciesField(deps.value)];
      }
      PendingBlockStep(json, pending, k, next);
      pending := next;
    }
    AllBlocksPending(json, pending);
    return Ok(pending);
  }

  /** `parse_from_dict`: keeps the manifest's entries that name a field, converts a truthy
      `version`, `environment`, `screenshots` and each truthy dependency block into typed
      values, and constructs the record from the result. It returns a record exactly when
      the manifest is acceptable, and then the record is the one the manifest describes.
      The source iterates the dict itself (its keys) where it evidently means `.items()`,
      reads the `screenshot` key where it means `screenshots`, and calls the block parser
      on each dependency where it means the block; see the as-written members below. */
  method ParseFromDict(json: seq<(string, Raw)>) returns (r: Result<Pubspec, ParseError>)
    ensures r.Ok? <==> Acceptable(json)
    ensures r.Ok? ==> IsNormalised(r.value) && Describes(json, r.value)
    ensures "name" !in Keys(json) ==> r.Err?
    // which error a manifest that is not acceptable raises
    ensures !ConvertedValuesFit(json) ==> r == Err(ScalarError(json))
    ensures ConvertedValuesFit(json) && !BlocksFit(json) ==> r == Err(FirstBlockError(json))
    ensures ConvertedValuesFit(json) && BlocksFit(json) && SpecialNames * Keys(json) != {} ==>
      r == Err(UnexpectedKeyword)
    ensures ConvertedValuesFit(json) && BlocksFit(json) && SpecialNames * Keys(json) == {} && "name" !in Keys(json) ==>
      r == Err(MissingName)
    ensures (ConvertedValuesFit(json) && BlocksFit(json) && SpecialNames * Keys(json) == {} && "name" in Keys(json)
             && !Get(json, "name").Str?) ==> r == Err(WrongType("name"))
  {
    var data := KnownFields(json);
    var scalars := PendingScalarConversions(json, data);
    if scalars.Err? {
      return Err(scalars.error);
    }
    var pending := PendingBlockConversions(json, data, scalars.value);
    if pending.Err? {
      return Err(pending.error);
    }
    ConstructFromManifest(json, pending.value);
    KeywordsOfManifest(json, pending.value);
    r := Construct(Update(data, pending.value));
  }

  // ---------------------------------------------------------------------------
  // Properties
  // ---------------------------------------------------------------------------

  /** Two manifests that agree on every field. */
  predicate SameFieldValues(a: seq<(string, Raw)>, b: seq<(string, Raw)>) {
    && Get(a, "name") == Get(b, "name")
    && Get(a, "version") == Get(b, "version")
    && Get(a, "publish_to") == Get(b, "publish_to")
    && Get(a, "author") == Get(b, "author")
    && Get(a, "authors") == Get(b, "authors")
    && Get(a, "environment") == Get(b, "environment")
    && Get(a, "homepage") == Get(b, "homepage")
    && Get(a, "repository") == Get(b, "repository")
    && Get(a, "issue_tracker") == Get(b, "issue_tracker")
    && Get(a, "funding") == Get(b, "funding")
    && Get(a, "topics") == Get(b, "topics")
    && Get(a, "screenshots") == Get(b, "screenshots")
    && Get(a, "documentation") == Get(b, "documentation")
    && Get(a, "description") == Get(b, "description")
    && Get(a, "dependencies") == Get(b, "dependencies")
    && Get(a, "dev_dependencies") == Get(b, "dev_dependencies")
    && Get(a, "dependency_overrides") == Get(b, "dependency_overrides")
    && Get(a, "flutter") == Get(b, "flutter")
  }

  /** Whether a manifest is accepted and what it describes depend only on its fields and
      on which of the filter's other names it has. */
  lemma SameFieldsSameRecord(a: seq<(string, Raw)>, b: seq<(string, Raw)>)
    requires SameFieldValues(a, b) && SpecialNames * Keys(a) == SpecialNames * Keys(b)
    ensures Acceptable(a) == Acceptable(b)
    ensures Acceptable(a) ==> forall p :: Describes(a, p) == Describes(b, p)
  {
    assert UntypedValuesFit(a) == UntypedValuesFit(b);
    assert ConvertedValuesFit(a) == ConvertedValuesFit(b);
    assert BlocksFit(a) == BlocksFit(b) by {
      assert BlockFits(a, "dependencies") == BlockFits(b, "dependencies");
      assert BlockFits(a, "dev_dependencies") == BlockFits(b, "dev_dependencies");
      assert BlockFits(a, "dependency_overrides") == BlockFits(b, "dependency_overrides");
    }
    if Acceptable(a) {
      forall p ensures Describes(a, p) == Describes(b, p) {
        assert UntypedDescribed(a, p) == UntypedDescribed(b, p);
        assert ConvertedDescribed(a, p) == ConvertedDescribed(b, p);
        assert BlocksDescribed(a, p) == BlocksDescribed(b, p);
      }
    }
  }

  /** Adding an entry under a key that no field is named after changes neither whether
      the manifest is accepted nor the record it describes. */
  lemma UnknownKeysIgnored(json: seq<(string, Raw)>, key: string, v: Raw)
    requires key !in FilterNames
    ensures Acceptable(json + [(key, v)]) == Acceptable(json)
    ensures Acceptable(json) ==> forall p :: Describes(json + [(key, v)], p) == Describes(json, p)
  {
    var longer := json + [(key, v)];
    assert Keys(longer) == Keys(json) + {key} by {
      KeysOfInit(longer);
      assert longer[..|longer| - 1] == json;
    }
    LookupAppendOther(json, (key, v), "name");
    LookupAppendOther(json, (key, v), "version");
    LookupAppendOther(json, (key, v), "publish_to");
    LookupAppendOther(json, (key, v), "author");
    LookupAppendOther(json, (key, v), "authors");
    LookupAppendOther(json, (key, v), "environment");
    LookupAppendOther(json, (key, v), "homepage");
    LookupAppendOther(json, (key, v), "repository");
    LookupAppendOther(json, (key, v), "issue_tracker");
    LookupAppendOther(json, (key, v), "funding");
    LookupAppendOther(json, (key, v), "topics");
    LookupAppendOther(json, (key, v), "screenshots");
    LookupAppendOther(json, (key, v), "documentation");
    LookupAppendOther(json, (key, v), "description");
    LookupAppendOther(json, (key, v), "dependencies");
    LookupAppendOther(json, (key, v), "dev_dependencies");
    LookupAppendOther(json, (key, v), "dependency_overrides");
    LookupAppendOther(json, (key, v), "flutter");
    SameFieldsSameRecord(longer, json);
  }

  /** A manifest naming only the package is accepted, and describes the record that has
      the name and nothing else. */
  lemma NameOnly(name: string)
    ensures Acceptable([("name", Str(name))])
    ensures forall p :: Describes([("name", Str(name))], p) <==>
      p == NewPubspec(name, None, None, None, None, None, None, None, None, None, None, None,
                      None, None, None, None, None, None)
  {
    var json := [("name", Str(name))];
    assert Keys(json) == {"name"} by {
      assert json[0].0 == "name";
    }
    forall k | k != "name" ensures Get(json, k) == Null {
    }
  }

  // ---------------------------------------------------------------------------
  // parse_from_dict as written
  // ---------------------------------------------------------------------------

  /** The filtering comprehension as written: `for k, v in json` iterates the keys and
      unpacks each key string into two names, which only succeeds for a key of exactly two
      characters (`ValueError` otherwise); its first character is then the key filtered. */
  function KnownFieldsAsWritten(json: seq<(string, Raw)>): (r: Result<map<string, Raw>, PythonError>)
    ensures r.Ok? <==> forall i | 0 <= i < |json| :: |json[i].0| == 2
    decreases |json|
  {
    if json == [] then Ok(map[])
    else
      var n := |json| - 1;
      var init := KnownFieldsAsWritten(json[..n]);
      assert forall i | 0 <= i < n :: json[..n][i] == json[i];
      if init.Err? then Err(init.error)
      else
        var key := json[n].0;
        if |key| != 2 then Err(ValueError)
        else if key[..1] in FilterNames then Ok(init.value[key[..1] := Str(key[1..])])
        else Ok(init.value)
  }

  /** As written, `parse_from_dict` never returns a record: the filter either raises or
      keeps nothing, since no name it keeps is a single character, and then nothing is
      converted and the constructor misses `name`. */
  lemma {:induction false} ParseFromDictAsWrittenFails(json: seq<(string, Raw)>)
    ensures KnownFieldsAsWritten(json) == Err(ValueError) || KnownFieldsAsWritten(json) == Ok(map[])
    ensures Construct(Update(map[], map[])) == Err(MissingName)
    decreases |json|
  {
    if json != [] {
      var n := |json| - 1;
      ParseFromDictAsWrittenFails(json[..n]);
      var key := json[n].0;
      if |key| == 2 {
        assert |key[..1]| == 1;
        assert forall name | name in FilterNames :: |name| > 1;
      }
    }
    assert Update(map[], map[]) == map[];
  }

  /** The screenshot step as written reads the key `screenshot`, which the filter never
      keeps, so its conversion never runs and the `screenshots` list reaches the
      constructor as the manifest's raw value. */
  lemma ScreenshotKeyNeverKept(json: seq<(string, Raw)>, pending: map<string, Field>)
    requires "screenshots" !in pending
    ensures DataAt(KnownFields(json), "screenshot") == Null
    ensures FieldAt(Update(KnownFields(json), pending), "screenshots") == Untyped(Get(json, "screenshots"))
  {
  }

  /** `parse_dependencies_dict(v)` as written at the dependency step, on one dependency's
      raw value `v` instead of the block: a string is iterated character by character and
      each one-character string fails to unpack into two names, a map is iterated by its
      keys, and `None`, booleans and numbers are not iterable. */
  function ParseDependenciesDictAsWritten(v: Raw): (r: Result<map<string, Dependency>, PythonError>)
    ensures v.Str? ==> (r.Ok? <==> v.s == "")
    ensures v.Obj? ==> r == DecodeDependenciesAsWritten(v.entries)
    ensures v.Null? ==> r == Err(TypeError)
  {
    match v
    case Str(s) => if s == "" then Ok(map[]) else Err(ValueError)
    case Obj(entries) => DecodeDependenciesAsWritten(entries)
    case _ => Err(TypeError)
  }

  /** The dependency step as written on a block: every package mapped to what
      `ParseDependenciesDictAsWritten` makes of its own value. */
  function DependencyBlockAsWritten(entries: seq<(string, Raw)>): (r: Result<map<string, map<string, Dependency>>, PythonError>)
    ensures r.Ok? <==> forall i | 0 <= i < |entries| :: ParseDependenciesDictAsWritten(entries[i].1).Ok?
  {
    MapEntries(entries, ParseDependenciesDictAsWritten)
  }

  /** A block depending on "http" at "^1.0.0" fails as written and decodes as intended. */
  lemma DependencyBlockAsWrittenFails()
    ensures DependencyBlockAsWritten([("http", Str("^1.0.0"))]).Err?
    ensures DecodeDependencies([("http", Str("^1.0.0"))]) == Ok(map["http" := Hosted(Some(ParseVersionSet("^1.0.0")))])
  {
    var entries := [("http", Str("^1.0.0"))];
    assert entries[0].0 == "http";
    assert Keys(entries) == {"http"} by {
      forall k | k in Keys(entries) ensures k == "http" {
      }
    }
    assert LastWithKey(entries, 0);
    assert ParseDependenciesDictAsWritten(entries[0].1).Err?;
  }
}
