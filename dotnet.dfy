/**
 * The few pieces of the .NET base library that the connector relies on:
 * nullable strings, `string.IsNullOrWhiteSpace`, `string.IsNullOrEmpty`,
 * ordinal and ordinal-ignore-case string comparison, and exceptions
 * identified by their message.
 */
module DotNet {
  import opened Wrappers

  /** A C# `string` reference: `None` is null. */
  type Str = Option<string>

  /** The characters for which `char.IsWhiteSpace` holds. */
  predicate IsWhiteSpace(c: char) {
    || '\U{9}' <= c <= '\U{D}'
    || c == ' ' || c == '\U{85}' || c == '\U{A0}' || c == '\U{1680}'
    || '\U{2000}' <= c <= '\U{200A}'
    || c == '\U{2028}' || c == '\U{2029}' || c == '\U{202F}' || c == '\U{205F}' || c == '\U{3000}'
  }

  /** `string.IsNullOrWhiteSpace`: null, empty, or white space only. */
  function IsNullOrWhiteSpace(s: Str): (r: bool)
    ensures s.Some? && |s.value| > 0 && !IsWhiteSpace(s.value[0]) ==> !r
  {
    s.None? || forall i :: 0 <= i < |s.value| ==> IsWhiteSpace(s.value[i])
  }

  /** `string.IsNullOrEmpty`. */
  function IsNullOrEmpty(s: Str): (r: bool)
    ensures r ==> IsNullOrWhiteSpace(s)
    ensures !r ==> s.Some? && |s.value| > 0
  {
    s.None? || s.value == ""
  }

  /**
   * Upper-casing used by `StringComparison.OrdinalIgnoreCase`, restricted to
   * the ASCII letters.
   */
  function ToUpperAscii(c: char): (u: char)
    ensures 'a' <= c <= 'z' ==> u as int == c as int - 32
    ensures !('a' <= c <= 'z') ==> u == c
  {
    if 'a' <= c <= 'z' then (c as int - 32) as char else c
  }

  /**
   * `string.Equals(a, b, StringComparison.OrdinalIgnoreCase)`: two nulls are
   * equal, a null never equals a string, and two strings are equal when they
   * have the same length and agree position by position after upper-casing.
   */
  predicate EqualsIgnoreCase(a: Str, b: Str) {
    match (a, b)
    case (None, None) => true
    case (Some(x), Some(y)) =>
      |x| == |y| && forall i :: 0 <= i < |x| ==> ToUpperAscii(x[i]) == ToUpperAscii(y[i])
    case _ => false
  }

  /** Ordinal (case-sensitive) equality implies ordinal-ignore-case equality. */
  lemma OrdinalImpliesIgnoreCase(a: Str, b: Str)
    requires a == b
    ensures EqualsIgnoreCase(a, b)
  {
  }

  /** Ordinal-ignore-case comparison is an equivalence relation. */
  lemma IgnoreCaseIsEquivalence(a: Str, b: Str, c: Str)
    ensures EqualsIgnoreCase(a, a)
    ensures EqualsIgnoreCase(a, b) ==> EqualsIgnoreCase(b, a)
    ensures EqualsIgnoreCase(a, b) && EqualsIgnoreCase(b, c) ==> EqualsIgnoreCase(a, c)
  {
  }

  /** "Alice" and "alice" differ ordinally but are equal ignoring case. */
  lemma CaseVariantsDifferOrdinally()
    ensures Some("Alice") != Some("alice")
    ensures EqualsIgnoreCase(Some("Alice"), Some("alice"))
  {
    assert "Alice"[0] != "alice"[0];
  }

  /** A thrown exception; the connector only ever looks at its message. */
  datatype Exception = Exception(message: string)

  /** The messages the storage service throws on purpose. */
  const ConflictMessage := "Conflict"
  const NotFoundMessage := "NotFound"
  const InvalidMemberTypeMessage := "InvalidMemberType"

  /** `ArgumentNullException`, e.g. from `new Guid(null)`. */
  const ArgumentNull := Exception("Value cannot be null. (Parameter 'g')")
  /** `FormatException` from `new Guid(s)` on a malformed string. */
  const BadGuidFormat := Exception("Unrecognized Guid format.")
  /** `NullReferenceException` from dereferencing a null reference. */
  const NullReference := Exception("Object reference not set to an instance of an object.")
  /** `ArgumentException` from `Dictionary.Add` on a key already present. */
  const DuplicateKey := Exception("An item with the same key has already been added.")

  /** True of the exceptions the runtime raises, as opposed to the store's own messages. */
  predicate IsRuntimeException(e: Exception) {
    e in {ArgumentNull, BadGuidFormat, NullReference, DuplicateKey}
  }

  /** No runtime exception carries one of the messages the connector recognises. */
  lemma RuntimeMessagesAreNotRecognised(e: Exception)
    requires IsRuntimeException(e)
    ensures e.message != ConflictMessage && e.message != NotFoundMessage && e.message != InvalidMemberTypeMessage
  {
  }
}
