/**
 * The semantic-version bump kind that both the edit-prompt dialog and the
 * save-version dialog keep in a `"major" | "minor" | "patch"` state variable.
 */
module Versioning {
  import opened Wrappers

  datatype VersionKind = Major | Minor | Patch

  /** Both dialogs start, and the save-version dialog resets, at "minor". */
  const DefaultKind: VersionKind := Minor

  /** The string the source stores for a kind (the select item's value). */
  function KindValue(k: VersionKind): (v: string)
    ensures v == "major" || v == "minor" || v == "patch"
    ensures k == DefaultKind <==> v == "minor"
  {
    match k
    case Major => "major"
    case Minor => "minor"
    case Patch => "patch"
  }

  /**
   * The `v as "major" | "minor" | "patch"` cast on a select value: it names a
   * kind exactly when `v` is one of the three values.
   */
  function ParseKind(v: string): (k: Option<VersionKind>)
    ensures k.Some? ==> KindValue(k.value) == v
    ensures k.None? ==> forall kind: VersionKind :: KindValue(kind) != v
  {
    if v == "major" then Some(Major)
    else if v == "minor" then Some(Minor)
    else if v == "patch" then Some(Patch)
    else None
  }

  /** Storing a kind and casting it back gives the same kind. */
  lemma ParseKindValue(k: VersionKind)
    ensures ParseKind(KindValue(k)) == Some(k)
  {
  }
}
