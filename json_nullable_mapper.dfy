/**
 * The three-state `JsonNullable` wrapper used by partial-update DTOs, and the
 * mapper's `wrap`, `unwrap` and `isPresent` helpers.
 *
 * A Java reference to a `JsonNullable<T>` is `Option<JsonNullable<T>>` (`None`
 * is a null reference); the wrapped entity is itself a nullable `Option<T>`.
 */
module JsonNullableMapper {
  import opened Wrappers

  /** `JsonNullable.undefined()` (the field was absent from the JSON) or
      `JsonNullable.of(x)` (the field was given, possibly as null). */
  datatype JsonNullable<T> = Undefined | Of(content: Option<T>)

  /** `wrap(entity)`: always a present wrapper, even around null. */
  function Wrap<T>(entity: Option<T>): (r: Option<JsonNullable<T>>)
    ensures r.Some? && r.value.Of?
    ensures IsPresent(r) && Unwrap(r) == entity
  {
    Some(Of(entity))
  }

  /** `unwrap(j)`: null for a null reference and for an undefined wrapper,
      otherwise the wrapped entity. */
  function Unwrap<T>(j: Option<JsonNullable<T>>): (r: Option<T>)
    ensures !IsPresent(j) ==> r.None?
    ensures IsPresent(j) ==> j == Some(Of(r))
  {
    match j
    case None => None
    case Some(Undefined) => None
    case Some(Of(x)) => x
  }

  /** `isPresent(j)`: the condition MapStruct checks before copying a field. */
  predicate IsPresent<T>(j: Option<JsonNullable<T>>)
  {
    j.Some? && j.value.Of?
  }

  /** What the generated partial-update code does with one field: copy the
      unwrapped value when the source is present, else keep the target. */
  function Patch<T>(source: Option<JsonNullable<T>>, target: Option<T>): (r: Option<T>)
    ensures !IsPresent(source) ==> r == target
    ensures IsPresent(source) ==> r == Unwrap(source)
  {
    if IsPresent(source) then Unwrap(source) else target
  }

  /** `isPresent` holds exactly of the wrappers `wrap` produces. */
  lemma IsPresentIffWrapped<T>(j: Option<JsonNullable<T>>)
    ensures IsPresent(j) <==> j == Wrap(Unwrap(j))
  {
    if IsPresent(j) {
      assert j == Some(Of(j.value.content));
    }
  }

  /** Patching is idempotent: applying the same source twice is applying it once. */
  lemma PatchIdempotent<T>(source: Option<JsonNullable<T>>, target: Option<T>)
    ensures Patch(source, Patch(source, target)) == Patch(source, target)
  {
  }
}
