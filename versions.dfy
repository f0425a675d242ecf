/** The external `versions` library, which the repository uses but does not implement.
    A version and a version constraint are kept opaque: each remembers the text it was
    parsed from and prints that text back. Ordering and range semantics are not modelled. */
module Versions {

  /** A `VersionItem`: a single version or a version range, as a dependency constrains it. */
  datatype VersionConstraint = VersionConstraint(text: string)

  /** A single `Version`, as a package declares it for itself. */
  datatype Version = Version(text: string)

  /** `parse_version_set`: parsing a constraint keeps its printed form. */
  function ParseVersionSet(s: string): (c: VersionConstraint)
    ensures FormatConstraint(c) == s
  {
    VersionConstraint(s)
  }

  /** `str(constraint)`. */
  function FormatConstraint(c: VersionConstraint): string {
    c.text
  }

  /** `parse_version`: parsing a version keeps its printed form. */
  function ParseVersion(s: string): (v: Version)
    ensures FormatVersion(v) == s
  {
    Version(s)
  }

  /** `str(version)`. */
  function FormatVersion(v: Version): string {
    v.text
  }

  /** A constraint is determined by its printed form. */
  lemma FormatThenParse(c: VersionConstraint)
    ensures ParseVersionSet(FormatConstraint(c)) == c
  {
  }
}
