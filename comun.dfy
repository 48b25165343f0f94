/**
 * Shared vocabulary: nullable values, the exceptions the service layer
 * throws, and a fact about maps whose values carry their own key.
 */
module Comun {

  /** A Java reference that may be null. */
  datatype Option<T> = None | Some(value: T)

  /**
   * The exception kinds that the controller tells apart. `Unexpected`
   * stands for any other exception (caught by `catch (Exception e)`).
   */
  datatype Error =
    | IllegalArgument(message: string)
    | IllegalState(message: string)
    | Unexpected(message: string)

  /** The outcome of a service-layer call: a value, or the exception it threw. */
  datatype Result<T> = Ok(value: T) | Err(error: Error)

  /** `s == null || s.isEmpty()` */
  predicate Blank(s: Option<string>)
  {
    s.None? || s.value == ""
  }

  /** No two keys share a value. */
  ghost predicate Injective<K, V>(m: map<K, V>)
  {
    forall a, b :: a in m && b in m && a != b ==> m[a] != m[b]
  }

  /** An injective map has as many distinct values as keys. */
  lemma {:induction false} InjectiveValuesCount<K, V>(m: map<K, V>)
    requires Injective(m)
    ensures |m.Values| == |m|
    decreases |m|
  {
    if m == map[] {
      assert m.Values == {};
    } else {
      var k :| k in m;
      var rest := m - {k};
      assert rest.Keys == m.Keys - {k};
      assert |rest| == |m| - 1;
      assert rest.Values == m.Values - {m[k]} by {
        forall v | v in m.Values - {m[k]} ensures v in rest.Values {
          var j :| j in m && m[j] == v;
          assert j != k && j in rest && rest[j] == v;
        }
        forall v | v in rest.Values ensures v in m.Values - {m[k]} {
          var j :| j in rest && rest[j] == v;
          assert j in m && j != k && m[j] == v;
        }
      }
      InjectiveValuesCount(rest);
    }
  }
}
