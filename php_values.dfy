/**
 * The few PHP value semantics the listener and the test case rely on:
 * nullable strings, the truthiness of strings, and substring containment.
 */
module PhpValues {

  /** A PHP `string|null` value. */
  datatype Nullable = Null | Str(value: string)

  /** PHP truthiness of a string: only "" and "0" are falsy. */
  predicate Truthy(s: string) {
    s != "" && s != "0"
  }

  /** PHP truthiness of a `string|null`: null is falsy, a string as above. */
  predicate NullableTruthy(v: Nullable) {
    v.Str? && Truthy(v.value)
  }

  /** `t` occurs in `s` starting at index `i`. */
  predicate OccursAt(s: string, t: string, i: int) {
    0 <= i && i + |t| <= |s| && s[i..i + |t|] == t
  }

  /** `t` occurs in `s` as a contiguous piece. */
  ghost predicate Contains(s: string, t: string) {
    exists i :: OccursAt(s, t, i)
  }

  /** A string built around `t` contains `t`. */
  lemma ContainsMiddle(a: string, t: string, b: string)
    ensures Contains(a + t + b, t)
  {
    var s := a + t + b;
    assert s[|a|..|a| + |t|] == t;
    assert OccursAt(s, t, |a|);
  }
}
