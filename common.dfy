/** Small shared vocabulary: an optional value (TypeScript's `T | null` /
    `T | undefined`) and the JavaScript truthiness of an optional string. */
module Common {

  datatype Option<+T> = None | Some(value: T)

  /** `if (s)` on a `string | null | undefined`: false for the absent value
      and for the empty string. */
  predicate Truthy(s: Option<string>)
  {
    s.Some? && s.value != ""
  }

  /** No element occurs twice. */
  predicate Distinct<T(==)>(s: seq<T>)
  {
    forall i, j :: 0 <= i < j < |s| ==> s[i] != s[j]
  }

  function Min(a: int, b: int): int
  {
    if a <= b then a else b
  }
}
