/** Values shared by every part of the model: nullable references, thrown
    exceptions, and the two string predicates of the .NET base library that
    the handler relies on (string.IsNullOrWhiteSpace and comparison with
    StringComparison.OrdinalIgnoreCase). */
module Common {

  /** A reference that may be null. */
  datatype Option<T> = None | Some(value: T)

  /** A .NET `string`, which may be null. */
  type NString = Option<string>

  /** The kinds of exception the core throws or routes. */
  datatype ExceptionKind =
    | ArgumentNull
    | InvalidOperation
    | NullReference
    | AuthenticationFailure
    | Other(typeName: string)

  datatype Exception = Exception(kind: ExceptionKind, message: string)

  /** The result of a call that either returns a value or throws. */
  datatype Outcome<T> = Ok(value: T) | Throw(exception: Exception)

  /** `new ArgumentNullException(paramName)` with the framework's message. */
  function ArgumentNullException(paramName: string): (e: Exception)
    ensures e.kind == ArgumentNull
  {
    Exception(ArgumentNull, "Value cannot be null. (Parameter '" + paramName + "')")
  }

  /** The exception the runtime raises when a member is invoked on null. */
  function NullReferenceException(): (e: Exception)
    ensures e.kind == NullReference
  {
    Exception(NullReference, "Object reference not set to an instance of an object.")
  }

  /** String interpolation renders a null string as the empty string. */
  function Str(s: NString): (r: string)
    ensures s.Some? ==> r == s.value
    ensures s.None? ==> r == ""
  {
    if s.Some? then s.value else ""
  }

  /** char.IsWhiteSpace: the Unicode space separators, line and paragraph
      separators, and the control characters U+0009..U+000D and U+0085. */
  predicate IsWhiteSpace(c: char) {
    var n := c as int;
    (9 <= n <= 13) || n == 32 || n == 0x85 || n == 0xA0 || n == 0x1680 ||
    (0x2000 <= n <= 0x200A) || n == 0x2028 || n == 0x2029 || n == 0x202F ||
    n == 0x205F || n == 0x3000
  }

  /** string.IsNullOrWhiteSpace: null, empty, or only white-space characters. */
  predicate IsNullOrWhiteSpace(s: NString) {
    s.None? || forall i :: 0 <= i < |s.value| ==> IsWhiteSpace(s.value[i])
  }

  /** string.IsNullOrEmpty. */
  predicate IsNullOrEmpty(s: NString) {
    s.None? || s.value == ""
  }

  /** Case folding used for OrdinalIgnoreCase comparisons; this model folds
      the ASCII letters only. */
  function FoldChar(c: char): (r: char)
    ensures 'a' <= c <= 'z' ==> r as int == c as int - 32
    ensures !('a' <= c <= 'z') ==> r == c
  {
    if 'a' <= c <= 'z' then (c as int - 32) as char else c
  }

  function Fold(s: string): (r: string)
    ensures |r| == |s|
    ensures forall i :: 0 <= i < |s| ==> r[i] == FoldChar(s[i])
  {
    seq(|s|, i requires 0 <= i < |s| => FoldChar(s[i]))
  }

  /** `a.Equals(b, StringComparison.OrdinalIgnoreCase)` for two non-null strings. */
  predicate SameIgnoreCase(a: string, b: string) {
    Fold(a) == Fold(b)
  }

  /** `string.Equals(a, b, StringComparison.OrdinalIgnoreCase)` where either
      side may be null: two nulls are equal, null and non-null are not. */
  predicate EqualsIgnoreCase(a: NString, b: NString) {
    (a.None? && b.None?) || (a.Some? && b.Some? && SameIgnoreCase(a.value, b.value))
  }

  /** Strings of different lengths never compare equal ignoring case. */
  lemma DifferentLengthsDiffer(a: string, b: string)
    requires |a| != |b|
    ensures !SameIgnoreCase(a, b)
  {
    assert |Fold(a)| != |Fold(b)|;
  }

  /** OrdinalIgnoreCase is an equivalence relation. */
  lemma SameIgnoreCaseIsEquivalence(a: string, b: string, c: string)
    ensures SameIgnoreCase(a, a)
    ensures SameIgnoreCase(a, b) ==> SameIgnoreCase(b, a)
    ensures SameIgnoreCase(a, b) && SameIgnoreCase(b, c) ==> SameIgnoreCase(a, c)
  {
  }
}
