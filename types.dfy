/** Identifiers of the stored entities and the small wrapper types shared by every module. */
module Types {

  /** Primary keys of the ORM tables. */
  type UserId = nat
  type TagId = nat
  type IngredientId = nat
  type RecipeId = nat

  /** A value that may be absent: a missing key of a request payload, an empty query parameter. */
  datatype Option<T> = None | Some(value: T) {
    function GetOr(default: T): T {
      match this
      case Some(v) => v
      case None => default
    }
  }

  /** The outcome of a validator: the accepted value, or the reason it was refused. */
  datatype Result<T, E> = Ok(value: T) | Err(error: E)

  /** An element occurs at most once in `s`. */
  predicate Distinct<T(==)>(s: seq<T>) {
    forall i, j :: 0 <= i < j < |s| ==> s[i] != s[j]
  }

  /** The set of the elements of `s`, as Python's `set(s)` builds it. */
  function ToSet<T(==)>(s: seq<T>): set<T> {
    set x | x in s
  }

  /** `len(set(s)) == len(s)` holds exactly when `s` has no repeated element. */
  lemma {:induction false} ToSetCardinality<T>(s: seq<T>)
    ensures |ToSet(s)| <= |s|
    ensures |ToSet(s)| == |s| <==> Distinct(s)
  {
    if s == [] {
      assert ToSet(s) == {};
    } else {
      var rest := s[1..];
      ToSetCardinality(rest);
      assert ToSet(s) == {s[0]} + ToSet(rest) by {
        forall x ensures x in ToSet(s) <==> x in {s[0]} + ToSet(rest) {
          if x in s && x != s[0] {
            var k :| 0 <= k < |s| && s[k] == x;
            assert rest[k - 1] == x;
          }
        }
      }
      if s[0] in rest {
        assert ToSet(s) == ToSet(rest);
        var k :| 0 <= k < |rest| && rest[k] == s[0];
        assert s[0] == s[k + 1];
        assert !Distinct(s);
      } else {
        assert s[0] !in ToSet(rest);
        assert |ToSet(s)| == |ToSet(rest)| + 1;
        if Distinct(s) {
          assert Distinct(rest) by {
            forall i, j | 0 <= i < j < |rest| ensures rest[i] != rest[j] {
              assert s[i + 1] != s[j + 1];
            }
          }
        } else {
          var i, j :| 0 <= i < j < |s| && s[i] == s[j];
          assert s[j] == rest[j - 1];
          assert rest[i - 1] == rest[j - 1];
          assert !Distinct(rest);
        }
      }
    }
  }
}
