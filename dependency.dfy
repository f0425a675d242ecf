/** The pub dependency declaration: five immutable variants, their encoders
    (`generate_dict_value`) and the decoder `parse_dependencies_dict` /
    `dependency_parser`, which dispatches on the shape of the raw value
    (pypub/structures/dependency.py). */
module Dependencies {
  import opened Wrappers
  import opened Versions
  import opened RawJson

  /** One dependency declaration. `Hosted` resolves against the default registry;
      the other four are written as a map whose first key is the variant's tag. */
  datatype Dependency =
    | Hosted(version: Option<VersionConstraint>)
    | ExternalHosted(version: Option<VersionConstraint>, hosted: string, name: Option<string>)
    | Git(url: string, path: Option<string>, ref: Option<string>)
    | Path(location: string)
    | Sdk(sdk: string, version: Option<VersionConstraint>)

  /** Why a raw value does not decode. */
  datatype DecodeError =
    | InvalidShape             // `TypeError`: neither null, a string nor a map
    | EmptyMap                 // a map with no first key to dispatch on
    | UnknownTag(key: string)  // `KeyError("Unknown keys in dependencies map - " + key)`
    | MissingKey(key: string)  // `KeyError` from `value[key]` on an absent key
    | NotAMap(key: string)     // `TypeError` from `value[...]` on the value under `key`
    | NotAString(key: string)  // the value under `key` is not the string the variant stores

  /** The keys the decoder recognises as the first key of a map. */
  const Tags: set<string> := {"hosted", "git", "path", "sdk"}

  /** The first key of a variant's encoding. */
  function Tag(d: Dependency): (t: string)
    requires !d.Hosted?
    ensures t in Tags
  {
    if d.ExternalHosted? then "hosted"
    else if d.Git? then "git"
    else if d.Path? then "path"
    else "sdk"
  }

  /** Python truthiness of an optional string: absent and empty are false. */
  predicate Present(o: Option<string>) {
    o.Some? && o.value != ""
  }

  /** What survives of an optional string in the raw form: only a present value. */
  function Kept(o: Option<string>): (r: Option<string>)
    ensures r.Some? <==> Present(o)
    ensures r.Some? ==> r == o
  {
    if Present(o) then o else None
  }

  // ---------------------------------------------------------------------------
  // Encoding: `generate_dict_value`

  /** `__version_constraint_in_str`: an absent constraint is written "any". */
  function ConstraintText(v: Option<VersionConstraint>): (s: string)
    ensures v.None? ==> s == "any"
    ensures v.Some? ==> ParseVersionSet(s) == v.value
  {
    if v.Some? then FormatConstraint(v.value) else "any"
  }

  /** An optional `(key, value)` entry, added only when the value is present
      (the loop over `path` and `ref` in `PubGitDependency.generate_dict_value`). */
  function EntryIfPresent(key: string, o: Option<string>): seq<(string, Raw)> {
    if Present(o) then [(key, Str(o.value))] else []
  }

  /** `generate_dict_value` of each variant. Every map encoding starts with the
      variant's tag, which is the key the decoder dispatches on. The Hosted helper is
      called by its plain name and Git's map holds the finished `git` value: the
      as-written behaviour of both is `EncodeAsWritten` below. */
  function Encode(d: Dependency): (r: Raw)
    ensures d.Hosted? <==> r.Str?
    ensures !d.Hosted? ==> r.Obj? && r.entries != [] && r.entries[0].0 == Tag(d)
    ensures d.Hosted? ==> r.s == ConstraintText(d.version)
    ensures d.ExternalHosted? ==> Lookup(r.entries, "version") == Some(Str(ConstraintText(d.version)))
    ensures d.ExternalHosted? ==> (r.entries[0].1.Str? <==> !Present(d.name))
    ensures d.Git? ==> |r.entries| == 1 && (r.entries[0].1.Str? <==> !Present(d.path) && !Present(d.ref))
    ensures d.Path? ==> r.entries == [("path", Str(d.location))]
    ensures d.Sdk? ==> ("version" in Keys(r.entries) <==> d.version.Some?)
    // the contents of each map form
    ensures d.ExternalHosted? ==> Keys(r.entries) == {"hosted", "version"}
    ensures d.ExternalHosted? && !Present(d.name) ==> r.entries[0].1 == Str(d.hosted)
    ensures d.ExternalHosted? && Present(d.name) ==>
      (r.entries[0].1.Obj? && Keys(r.entries[0].1.entries) == {"name", "url"}
       && Lookup(r.entries[0].1.entries, "url") == Some(Str(d.hosted))
       && Lookup(r.entries[0].1.entries, "name") == Some(Str(d.name.value)))
    ensures d.Git? && !Present(d.path) && !Present(d.ref) ==> r.entries[0].1 == Str(d.url)
    ensures d.Git? && (Present(d.path) || Present(d.ref)) ==>
      (r.entries[0].1.Obj? && Keys(r.entries[0].1.entries) <= {"url", "path", "ref"}
       && Lookup(r.entries[0].1.entries, "url") == Some(Str(d.url))
       && Lookup(r.entries[0].1.entries, "path") == (if Present(d.path) then Some(Str(d.path.value)) else None)
       && Lookup(r.entries[0].1.entries, "ref") == (if Present(d.ref) then Some(Str(d.ref.value)) else None))
    ensures d.Sdk? ==> Keys(r.entries) <= {"sdk", "version"} && Lookup(r.entries, "sdk") == Some(Str(d.sdk))
    ensures d.Sdk? && d.version.Some? ==>
      Lookup(r.entries, "version") == Some(Str(FormatConstraint(d.version.value)))
  {
    match d
    case Hosted(v) => Str(ConstraintText(v))
    case ExternalHosted(v, host, name) =>
      var hosted := if Present(name) then Obj([("name", Str(name.value)), ("url", Str(host))]) else Str(host);
      KeysOfPair(("name", Str(if Present(name) then name.value else "")), ("url", Str(host)));
      KeysOfPair(("hosted", hosted), ("version", Str(ConstraintText(v))));
      Obj([("hosted", hosted), ("version", Str(ConstraintText(v)))])
    case Git(url, path, ref) =>
      var rest := EntryIfPresent("path", path) + EntryIfPresent("ref", ref);
      assert Lookup(rest, "ref") == (if Present(ref) then Some(Str(ref.value)) else None) by {
        if Present(path) { assert rest[1..] == EntryIfPresent("ref", ref); }
      }
      var git := if !Present(path) && !Present(ref) then Str(url)
                 else Obj([("url", Str(url))] + rest);
      assert [("url", Str(url))] + EntryIfPresent("path", path) + EntryIfPresent("ref", ref) == [("url", Str(url))] + rest;
      Obj([("git", git)])
    case Path(p) => Obj([("path", Str(p))])
    case Sdk(sdk, v) =>
      var entries := [("sdk", Str(sdk))] + if v.Some? then [("version", Str(FormatConstraint(v.value)))] else [];
      assert v.None? ==> entries == [("sdk", Str(sdk))];
      assert v.Some? ==> entries[1].0 == "version";
      Obj(entries)
  }

  // ---------------------------------------------------------------------------
  // Decoding: `dependency_parser`

  /** `ver = rdv.get("version"); parse_version_set(ver) if ver else None`. */
  function ConstraintAt(entries: seq<(string, Raw)>): (r: Result<Option<VersionConstraint>, DecodeError>)
    ensures !TruthyAt(entries, "version") ==> r == Ok(None)
    ensures StrAt(entries, "version").Some? && StrAt(entries, "version").value != "" ==>
      r == Ok(Some(ParseVersionSet(StrAt(entries, "version").value)))
  {
    match Lookup(entries, "version")
    case None => Ok(None)
    case Some(v) =>
      if !Truthy(v) then Ok(None)
      else if v.Str? then Ok(Some(ParseVersionSet(v.s)))
      else Err(NotAString("version"))
  }

  /** `value[key]` where the variant stores a string. */
  function RequiredString(entries: seq<(string, Raw)>, key: string): (r: Result<string, DecodeError>)
    ensures r.Ok? <==> StrAt(entries, key).Some?
    ensures r.Ok? ==> r.value == StrAt(entries, key).value
    ensures key !in Keys(entries) ==> r == Err(MissingKey(key))
  {
    match Lookup(entries, key)
    case None => Err(MissingKey(key))
    case Some(Str(s)) => Ok(s)
    case Some(_) => Err(NotAString(key))
  }

  /** `value.get(key)` where the variant stores an optional string. */
  function OptionalString(entries: seq<(string, Raw)>, key: string): (r: Result<Option<string>, DecodeError>)
    ensures Lookup(entries, key) in {None, Some(Null)} ==> r == Ok(None)
    ensures StrAt(entries, key).Some? ==> r == Ok(StrAt(entries, key))
  {
    match Lookup(entries, key)
    case None => Ok(None)
    case Some(Null) => Ok(None)
    case Some(Str(s)) => Ok(Some(s))
    case Some(_) => Err(NotAString(key))
  }

  /** The first entry of a map has key `key`. */
  predicate FirstKeyIs(raw: Raw, key: string) {
    raw.Obj? && raw.entries != [] && raw.entries[0].0 == key
  }

  /** The value of a map's first entry: what the variant's tag holds. */
  function FirstValue(raw: Raw): Raw
    requires raw.Obj? && raw.entries != []
  {
    raw.entries[0].1
  }

  /** Whether a `hosted` value carries what `PubExternalHostedDependency` is built from:
      a bare host, or a map with a string `url` and a `name` that `str()` can print. */
  predicate HostedValueFits(value: Raw) {
    value.Str?
    || (value.Obj? && StrAt(value.entries, "url").Some? && Lookup(value.entries, "name").Some?
        && PyStr(Lookup(value.entries, "name").value).Some?)
  }

  /** The `"hosted"` case: the version sibling, then either a bare host string or
      a map with `url` and `name` (`str(value["name"])`). */
  function DecodeHosted(entries: seq<(string, Raw)>, value: Raw): (r: Result<Dependency, DecodeError>)
    ensures r.Ok? <==> ConstraintAt(entries).Ok? && HostedValueFits(value)
    ensures r.Ok? ==> r.value.ExternalHosted? && r.value.version == ConstraintAt(entries).value
    ensures r.Ok? && value.Str? ==> r.value.hosted == value.s && r.value.name == None
    ensures r.Ok? && value.Obj? ==>
      (Lookup(value.entries, "url") == Some(Str(r.value.hosted))
       && r.value.name == PyStr(Lookup(value.entries, "name").value))
    ensures ConstraintAt(entries).Ok? && !value.Str? && !value.Obj? ==> r == Err(NotAMap("hosted"))
  {
    var version :- ConstraintAt(entries);
    match value
    case Str(host) => Ok(ExternalHosted(version, host, None))
    case Obj(m) =>
      var url :- RequiredString(m, "url");
      var nameRaw := Lookup(m, "name");
      if nameRaw.None? then Err(MissingKey("name"))
      else
        var name := PyStr(nameRaw.value);
        if name.None? then Err(NotAString("name"))
        else Ok(ExternalHosted(version, url, name))
    case _ => Err(NotAMap("hosted"))
  }

  /** The `"git"` case: a bare URL (path and ref absent), or a map with `url` and
      optional `path` and `ref`. */
  function DecodeGit(value: Raw): (r: Result<Dependency, DecodeError>)
    ensures value.Str? ==> r == Ok(Git(value.s, None, None))
    ensures value.Obj? ==>
      (r.Ok? <==> StrAt(value.entries, "url").Some? && OptionalString(value.entries, "path").Ok?
                  && OptionalString(value.entries, "ref").Ok?)
    ensures value.Obj? && r.Ok? ==>
      r.value == Git(StrAt(value.entries, "url").value, OptionalString(value.entries, "path").value,
                     OptionalString(value.entries, "ref").value)
    ensures !value.Str? && !value.Obj? ==> r == Err(NotAMap("git"))
  {
    match value
    case Str(url) => Ok(Git(url, None, None))
    case Obj(m) =>
      var url :- RequiredString(m, "url");
      var path :- OptionalString(m, "path");
      var ref :- OptionalString(m, "ref");
      Ok(Git(url, path, ref))
    case _ => Err(NotAMap("git"))
  }

  /** `dependency_parser`. Null and strings are Hosted; a map dispatches on its first
      key alone; anything else is a `TypeError`. This is the evident intent of the
      source: it builds `PubHostedDependency()` without its version, subscripts
      `keys()` (not subscriptable in Python 3), builds `PubGitDependency(url)` without
      path and ref, and does not parse the sdk version; see `DecodeAsWritten`. */
  function Decode(raw: Raw): (r: Result<Dependency, DecodeError>)
    ensures raw.Null? ==> r == Ok(Hosted(None))
    ensures raw.Str? ==> r == Ok(Hosted(Some(ParseVersionSet(raw.s))))
    ensures r.Ok? && r.value.Hosted? <==> raw.Null? || raw.Str?
    ensures r == Err(InvalidShape) <==> !(raw.Null? || raw.Str? || raw.Obj?)
    ensures raw == Obj([]) ==> r == Err(EmptyMap)
    ensures raw.Obj? && raw.entries != [] && raw.entries[0].0 !in Tags ==>
      r == Err(UnknownTag(raw.entries[0].0))
    ensures r.Ok? && raw.Obj? ==> raw.entries != [] && Tag(r.value) == raw.entries[0].0
    // what each tag's value decodes to
    ensures FirstKeyIs(raw, "hosted") ==>
      (r.Ok? <==> ConstraintAt(raw.entries).Ok? && HostedValueFits(FirstValue(raw)))
    ensures FirstKeyIs(raw, "hosted") && r.Ok? ==>
      r.value.ExternalHosted? && r.value.version == ConstraintAt(raw.entries).value
    ensures FirstKeyIs(raw, "hosted") && FirstValue(raw).Str? && r.Ok? ==>
      r.value.hosted == FirstValue(raw).s && r.value.name == None
    ensures FirstKeyIs(raw, "hosted") && FirstValue(raw).Obj? && r.Ok? ==>
      (Lookup(FirstValue(raw).entries, "url") == Some(Str(r.value.hosted))
       && r.value.name == PyStr(Lookup(FirstValue(raw).entries, "name").value))
    ensures FirstKeyIs(raw, "hosted") && ConstraintAt(raw.entries).Ok? && !FirstValue(raw).Str? && !FirstValue(raw).Obj? ==>
      r == Err(NotAMap("hosted"))
    ensures FirstKeyIs(raw, "git") && FirstValue(raw).Str? ==> r == Ok(Git(FirstValue(raw).s, None, None))
    ensures FirstKeyIs(raw, "git") && FirstValue(raw).Obj? ==>
      (r.Ok? <==> StrAt(FirstValue(raw).entries, "url").Some?
                  && OptionalString(FirstValue(raw).entries, "path").Ok?
                  && OptionalString(FirstValue(raw).entries, "ref").Ok?)
    ensures FirstKeyIs(raw, "git") && FirstValue(raw).Obj? && r.Ok? ==>
      r.value == Git(StrAt(FirstValue(raw).entries, "url").value,
                     OptionalString(FirstValue(raw).entries, "path").value,
                     OptionalString(FirstValue(raw).entries, "ref").value)
    ensures FirstKeyIs(raw, "git") && !FirstValue(raw).Str? && !FirstValue(raw).Obj? ==>
      r == Err(NotAMap("git"))
    ensures FirstKeyIs(raw, "path") ==>
      r == if FirstValue(raw).Str? then Ok(Path(FirstValue(raw).s)) else Err(NotAString("path"))
    ensures FirstKeyIs(raw, "sdk") && FirstValue(raw).Str? ==>
      (r.Ok? <==> ConstraintAt(raw.entries).Ok?)
    ensures FirstKeyIs(raw, "sdk") && FirstValue(raw).Str? && r.Ok? ==>
      r.value == Sdk(FirstValue(raw).s, ConstraintAt(raw.entries).value)
    ensures FirstKeyIs(raw, "sdk") && !FirstValue(raw).Str? ==> r == Err(NotAString("sdk"))
  {
    match raw
    case Null => Ok(Hosted(None))
    case Str(s) => Ok(Hosted(Some(ParseVersionSet(s))))
    case Obj(entries) =>
      if entries == [] then Err(EmptyMap)
      else
        var (key, value) := entries[0];
        if key == "hosted" then DecodeHosted(entries, value)
        else if key == "git" then DecodeGit(value)
        else if key == "path" then
          if value.Str? then Ok(Path(value.s)) else Err(NotAString("path"))
        else if key == "sdk" then
          if value.Str? then
            var version :- ConstraintAt(entries);
            Ok(Sdk(value.s, version))
          else Err(NotAString("sdk"))
        else Err(UnknownTag(key))
    case _ => Err(InvalidShape)
  }

  /** `parse_dependencies_dict`: every package name of the block, each mapped to the
      decoding of its raw value; the first entry that fails to decode fails the block.
      The source iterates the dict itself (its keys) where it evidently means
      `.items()`; see `DecodeDependenciesAsWritten`. */
  function DecodeDependencies(entries: seq<(string, Raw)>): (r: Result<map<string, Dependency>, DecodeError>)
    ensures r.Ok? <==> forall i | 0 <= i < |entries| :: Decode(entries[i].1).Ok?
    ensures r.Ok? ==> r.value.Keys == Keys(entries)
    ensures r.Ok? ==> forall i | 0 <= i < |entries| && LastWithKey(entries, i) ::
      Decode(entries[i].1) == Ok(r.value[entries[i].0])
    ensures r.Err? ==> exists i | 0 <= i < |entries| ::
      (Decode(entries[i].1) == Err(r.error) && forall j | 0 <= j < i :: Decode(entries[j].1).Ok?)
  {
    MapEntries(entries, Decode)
  }

  // ---------------------------------------------------------------------------
  // Round trips

  /** A dependency whose every part survives the raw form: constraints that the
      decoder reads back (a Hosted constraint present, an ExternalHosted or Sdk
      constraint printing non-empty) and no empty optional strings. */
  predicate IsCanonical(d: Dependency) {
    match d
    case Hosted(v) => v.Some?
    case ExternalHosted(v, _, name) => v.Some? && FormatConstraint(v.value) != "" && Kept(name) == name
    case Git(_, path, ref) => Kept(path) == path && Kept(ref) == ref
    case Path(_) => true
    case Sdk(_, v) => v.Some? ==> FormatConstraint(v.value) != ""
  }

  /** An absent Hosted constraint is written "any" and reads back as the constraint "any". */
  lemma HostedRoundTrip(v: Option<VersionConstraint>)
    ensures Decode(Encode(Hosted(v))) == Ok(Hosted(Some(if v.Some? then v.value else ParseVersionSet("any"))))
  {
  }

  /** The host and a present name survive; the version reads back as what was written. */
  lemma ExternalHostedRoundTrip(v: Option<VersionConstraint>, host: string, name: Option<string>)
    ensures var text := ConstraintText(v);
      Decode(Encode(ExternalHosted(v, host, name)))
      == Ok(ExternalHosted(if text == "" then None else Some(ParseVersionSet(text)), host, Kept(name)))
  {
    var raw := Encode(ExternalHosted(v, host, name));
    assert Lookup(raw.entries, "version") == Some(Str(ConstraintText(v)));
    if Present(name) {
      var m := raw.entries[0].1.entries;
      assert Lookup(m, "url") == Some(Str(host));
      assert Lookup(m, "name") == Some(Str(name.value));
    }
  }

  /** The URL and the present path and ref survive; the bare-URL shorthand reads back
      with both absent. */
  lemma GitRoundTrip(url: string, path: Option<string>, ref: Option<string>)
    ensures Decode(Encode(Git(url, path, ref))) == Ok(Git(url, Kept(path), Kept(ref)))
  {
    var r := Encode(Git(url, path, ref));
    assert FirstKeyIs(r, "git");
    if Present(path) || Present(ref) {
      var m := FirstValue(r).entries;
      assert StrAt(m, "url") == Some(url);
      assert OptionalString(m, "path") == Ok(Kept(path));
      assert OptionalString(m, "ref") == Ok(Kept(ref));
    } else {
      assert FirstValue(r) == Str(url);
    }
  }


  lemma PathRoundTrip(p: string)
    ensures Decode(Encode(Path(p))) == Ok(Path(p))
  {
  }

  /** The SDK name survives, and so does a constraint that prints non-empty. */
  lemma SdkRoundTrip(sdk: string, v: Option<VersionConstraint>)
    ensures Decode(Encode(Sdk(sdk, v)))
      == Ok(Sdk(sdk, if v.Some? && FormatConstraint(v.value) != "" then v else None))
  {
    var raw := Encode(Sdk(sdk, v));
    if v.Some? {
      assert Lookup(raw.entries, "version") == Some(Str(FormatConstraint(v.value)));
    } else {
      assert "version" !in Keys(raw.entries);
    }
  }

  /** Decoding inverts encoding on canonical dependencies. */
  lemma RoundTrip(d: Dependency)
    requires IsCanonical(d)
    ensures Decode(Encode(d)) == Ok(d)
  {
    match d
    case Hosted(v) => HostedRoundTrip(v);
    case ExternalHosted(v, host, name) =>
      ExternalHostedRoundTrip(v, host, name);
      FormatThenParse(v.value);
    case Git(url, path, ref) => GitRoundTrip(url, path, ref);
    case Path(p) => PathRoundTrip(p);
    case Sdk(sdk, v) => SdkRoundTrip(sdk, v);
  }

  /** Every constraint a dependency holds prints non-empty. */
  predicate ConstraintsPrintNonEmpty(d: Dependency) {
    !d.Git? && !d.Path? && d.version.Some? ==> FormatConstraint(d.version.value) != ""
  }

  /** The raw form is a fixpoint: encoding what the decoder reads back from an
      encoding reproduces that encoding, "any" included. */
  lemma EncodingIsStable(d: Dependency)
    requires ConstraintsPrintNonEmpty(d)
    ensures Decode(Encode(d)).Ok?
    ensures Encode(Decode(Encode(d)).value) == Encode(d)
  {
    match d
    case Hosted(v) => HostedRoundTrip(v);
    case ExternalHosted(v, host, name) =>
      ExternalHostedRoundTrip(v, host, name);
    case Git(url, path, ref) => GitRoundTrip(url, path, ref);
    case Path(p) => PathRoundTrip(p);
    case Sdk(sdk, v) => SdkRoundTrip(sdk, v);
  }

  // ---------------------------------------------------------------------------
  // The source as written, where it departs from its evident intent

  /** The exceptions the as-written source raises where its intent does not. */
  datatype PythonError = TypeError | NameError | ValueError

  /** `generate_dict_value` as written. `PubHostedDependency` calls the module-level
      `__version_constraint_in_str` from inside its class body, where Python rewrites the
      name to `_PubHostedDependency__version_constraint_in_str`, which does not exist: a
      Hosted encoding, and through `super()` an ExternalHosted one, raises `NameError`.
      `PubGitDependency` puts `git_context` into its map while that is still `None` and
      never puts the computed value in, so a Git encoding is always `{"git": None}`. */
  function EncodeAsWritten(d: Dependency): (r: Result<Raw, PythonError>)
    ensures r == Err(NameError) <==> d.Hosted? || d.ExternalHosted?
    ensures d.Git? ==> r == Ok(Obj([("git", Null)]))
    ensures d.Path? || d.Sdk? ==> r == Ok(Encode(d))
  {
    match d
    case Hosted(_) => Err(NameError)
    case ExternalHosted(_, _, _) => Err(NameError)
    case Git(_, _, _) => Ok(Obj([("git", Null)]))
    case _ => Ok(Encode(d))
  }

  /** As written, a Git encoding loses the URL and does not decode, where the intended
      encoding reads back with the URL. */
  lemma GitEncodingAsWrittenDoesNotDecode(url: string, path: Option<string>, ref: Option<string>)
    ensures EncodeAsWritten(Git(url, path, ref)).Ok?
    ensures Decode(EncodeAsWritten(Git(url, path, ref)).value) == Err(NotAMap("git"))
    ensures Decode(Encode(Git(url, path, ref))) == Ok(Git(url, Kept(path), Kept(ref)))
  {
    GitRoundTrip(url, path, ref);
  }

  /** `dependency_parser` as written: `PubHostedDependency()` lacks its `version`
      argument and `rdv.keys()[0]` subscripts a keys view, which Python 3 refuses; both
      raise `TypeError`, so only a bare version string decodes, and to what `Decode` gives. */
  function DecodeAsWritten(raw: Raw): (r: Result<Dependency, PythonError>)
    ensures r.Ok? <==> raw.Str?
    ensures r.Ok? ==> Decode(raw) == Ok(r.value)
  {
    match raw
    case Str(s) => Ok(Hosted(Some(ParseVersionSet(s))))
    case _ => Err(TypeError)
  }

  /** As written, null and every map encoding fail to decode; as intended, they all decode. */
  lemma DecodeAsWrittenRejectsMaps(d: Dependency)
    requires !d.Hosted?
    ensures DecodeAsWritten(Null).Err? && Decode(Null) == Ok(Hosted(None))
    ensures DecodeAsWritten(Encode(d)).Err? && Decode(Encode(d)).Ok?
  {
    match d
    case ExternalHosted(v, host, name) => ExternalHostedRoundTrip(v, host, name);
    case Git(url, path, ref) => GitRoundTrip(url, path, ref);
    case Path(p) => PathRoundTrip(p);
    case Sdk(sdk, v) => SdkRoundTrip(sdk, v);
  }

  /** `parse_dependencies_dict` as written: `for k, v in dependencies_dict` iterates the
      keys and unpacks each key string into two names, which only succeeds for a key of
      exactly two characters (`ValueError` otherwise); the second character is then
      decoded as a bare version string under the first. */
  function DecodeDependenciesAsWritten(entries: seq<(string, Raw)>): (r: Result<map<string, Dependency>, PythonError>)
    ensures r.Ok? <==> forall i | 0 <= i < |entries| :: |entries[i].0| == 2
    decreases |entries|
  {
    if entries == [] then Ok(map[])
    else
      var n := |entries| - 1;
      var init := DecodeDependenciesAsWritten(entries[..n]);
      assert forall i | 0 <= i < n :: entries[..n][i] == entries[i];
      if init.Err? then Err(init.error)
      else
        var key := entries[n].0;
        if |key| != 2 then Err(ValueError)
        else Ok(init.value[key[..1] := Hosted(Some(ParseVersionSet(key[1..])))])
  }

  /** A block naming the package "http" fails as written and decodes as intended. */
  lemma DecodeDependenciesAsWrittenFails()
    ensures DecodeDependenciesAsWritten([("http", Null)]) == Err(ValueError)
    ensures DecodeDependencies([("http", Null)]) == Ok(map["http" := Hosted(None)])
  {
    var entries := [("http", Null)];
    assert entries[0].0 == "http";
    assert Keys(entries) == {"http"} by {
      forall k | k in Keys(entries) ensures k == "http" {
      }
    }
    assert LastWithKey(entries, 0);
  }
}
