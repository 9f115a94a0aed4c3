/**
 * The values `response.json()` can hand back, together with the pieces of
 * Python semantics that homework.py applies to them: truthiness (`if x:`,
 * `x or y`) and the `in` operator on strings.
 */
module PyValues {

  /** A decoded JSON document: None, bool, int, float, str, list or dict. */
  datatype Value =
    | Null
    | Bool(b: bool)
    | Int(i: int)
    | Float(r: real)
    | Str(s: string)
    | List(items: seq<Value>)
    | Dict(fields: map<string, Value>)

  /** Python truthiness: exactly None, False, zero and the empty containers are false. */
  predicate Truthy(v: Value)
    ensures !Truthy(v) <==> v in {Null, Bool(false), Int(0), Float(0.0), Str(""), List([]), Dict(map[])}
  {
    match v
    case Null => false
    case Bool(b) => b
    case Int(i) => i != 0
    case Float(r) => r != 0.0
    case Str(s) => s != ""
    case List(items) => items != []
    case Dict(fields) => fields != map[]
  }

  /** Python `x or y`: `x` itself when it is truthy, otherwise `y`. */
  function Or(x: Value, y: Value): (r: Value)
    ensures Truthy(r) <==> Truthy(x) || Truthy(y)
    ensures Truthy(x) ==> r == x
    ensures !Truthy(x) ==> r == y
  {
    if Truthy(x) then x else y
  }

  predicate StartsWith(s: string, prefix: string) {
    |prefix| <= |s| && s[..|prefix|] == prefix
  }

  /** Python `needle in haystack` for two strings, scanning from the left. */
  predicate Contains(haystack: string, needle: string)
    decreases |haystack|
  {
    StartsWith(haystack, needle) || (haystack != [] && Contains(haystack[1..], needle))
  }

  /** `needle` occurs in `haystack` starting at offset `k`. */
  predicate OccursAt(haystack: string, needle: string, k: int) {
    0 <= k && k + |needle| <= |haystack| && haystack[k..k + |needle|] == needle
  }

  /** `Contains` is the substring test: `needle` occurs at some offset. */
  lemma {:induction false} ContainsIsSubstring(haystack: string, needle: string)
    ensures Contains(haystack, needle) <==> exists k :: OccursAt(haystack, needle, k)
    decreases |haystack|
  {
    if haystack != [] {
      var tail := haystack[1..];
      ContainsIsSubstring(tail, needle);
      if StartsWith(haystack, needle) {
        assert OccursAt(haystack, needle, 0);
      }
      if Contains(tail, needle) {
        var k :| OccursAt(tail, needle, k);
        assert haystack[k + 1..k + 1 + |needle|] == needle;
        assert OccursAt(haystack, needle, k + 1);
      }
      if exists k :: OccursAt(haystack, needle, k) {
        var k :| OccursAt(haystack, needle, k);
        if k == 0 {
          assert StartsWith(haystack, needle);
        } else {
          assert tail[k - 1..k - 1 + |needle|] == needle;
          assert OccursAt(tail, needle, k - 1);
        }
      }
    } else {
      if Contains(haystack, needle) {
        assert OccursAt(haystack, needle, 0);
      }
      if exists k :: OccursAt(haystack, needle, k) {
        var k :| OccursAt(haystack, needle, k);
        assert StartsWith(haystack, needle);
      }
    }
  }
}
