/** The documentation-status results: `DocumentStatus`, `PubVersionDocumentation` and
    `PubDocumentation` (pydartpub/api/result/documentations.py). The repository site is a
    parameter; a URL is a site followed by path segments, as `furl(...).add(path=...)`
    builds it. */
module Documentations {
  import opened Wrappers
  import opened Versions

  /** The rendering state of one version's documentation; an `Enum` with the values 0, 1, 2. */
  datatype DocumentStatus = Pending | Failed | Success {

    function Value(): nat {
      match this
      case Pending => 0
      case Failed => 1
      case Success => 2
    }
  }

  /** `DocumentStatus(value)`: the member with that value, if any. */
  function StatusOf(value: int): (r: Option<DocumentStatus>)
    ensures r.Some? <==> 0 <= value < 3
    ensures r.Some? ==> r.value.Value() == value
  {
    if value == 0 then Some(Pending)
    else if value == 1 then Some(Failed)
    else if value == 2 then Some(Success)
    else None
  }

  /** The three statuses are told apart by their values, and every value names its status. */
  lemma StatusValuesRoundTrip(s: DocumentStatus)
    ensures StatusOf(s.Value()) == Some(s)
  {
  }

  /** One version's documentation status. */
  datatype VersionDocumentation = VersionDocumentation(
    packageName: string,
    version: Version,
    status: DocumentStatus,
    hasDocumentation: bool)
  {
    /** The constructor's assertion: rendered documentation only for a successful build. */
    predicate Valid() {
      hasDocumentation ==> status == Success
    }
  }

  /** The `AssertionError` the constructor raises. */
  datatype DocumentationError = DocumentedWithoutSuccess(status: DocumentStatus)

  /** `PubVersionDocumentation(package_name, version, status, has_documentation)`:
      refused when documentation is claimed for a status other than `SUCCESS`;
      otherwise the accessors return the arguments unchanged. */
  function NewVersionDocumentation(packageName: string, version: Version, status: DocumentStatus, hasDocumentation: bool)
    : (r: Result<VersionDocumentation, DocumentationError>)
    ensures r.Err? <==> hasDocumentation && status != Success
    ensures r.Err? ==> r.error == DocumentedWithoutSuccess(status)
    ensures r.Ok? ==> r.value.Valid()
    ensures r.Ok? ==> (r.value.packageName == packageName && r.value.version == version
                       && r.value.status == status && r.value.hasDocumentation == hasDocumentation)
  {
    if hasDocumentation && status != Success then Err(DocumentedWithoutSuccess(status))
    else Ok(VersionDocumentation(packageName, version, status, hasDocumentation))
  }

  /** Having documentation implies the status is `SUCCESS`, for every object the
      constructor accepts. */
  lemma DocumentedImpliesSuccess(packageName: string, version: Version, status: DocumentStatus, hasDocumentation: bool)
    requires NewVersionDocumentation(packageName, version, status, hasDocumentation).Ok?
    ensures hasDocumentation ==> status == Success
  {
  }

  /** A URL: a site followed by path segments. */
  datatype Location = Location(site: string, segments: seq<string>)

  /** `furl.add(path=segment)`: append one path segment. */
  function AddPath(loc: Location, segment: string): (r: Location)
    ensures r.site == loc.site && r.segments == loc.segments + [segment]
  {
    Location(loc.site, loc.segments + [segment])
  }

  /** `resolve_documentation_url`: absent exactly when there is no documentation;
      otherwise the repository site followed by `documentation`, the package name and
      the version string. */
  function ResolveDocumentationUrl(site: string, d: VersionDocumentation): (r: Option<Location>)
    ensures r.None? <==> !d.hasDocumentation
    ensures r.Some? ==> (r.value.site == site
                         && r.value.segments == ["documentation", d.packageName, FormatVersion(d.version)])
  {
    if d.hasDocumentation then
      Some(AddPath(AddPath(AddPath(Location(site, []), "documentation"), d.packageName), FormatVersion(d.version)))
    else None
  }

  /** A resolvable documentation URL belongs to a successful build. */
  lemma ResolvedUrlMeansSuccess(site: string, d: VersionDocumentation)
    requires d.Valid()
    ensures ResolveDocumentationUrl(site, d).Some? ==> d.status == Success
  {
  }

  /** `PubDocumentation`: a package's name, its latest stable version and the status of
      each version, in the order given. */
  datatype PackageDocumentation = PackageDocumentation(
    name: string,
    latestStableVersion: Version,
    versions: seq<VersionDocumentation>)
}
