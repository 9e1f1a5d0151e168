/** Small shared datatypes and helpers. */
module Common {

  /** A value that may be missing: JavaScript's null/undefined, Python's None. */
  datatype Option<+T> = None | Some(value: T) {
    function GetOr(default: T): T {
      match this
      case Some(v) => v
      case None => default
    }
  }

  /** Ascending without repeats: what sorting a set of numbers produces. */
  predicate StrictlyIncreasing(s: seq<int>) {
    forall i, j :: 0 <= i < j < |s| ==> s[i] < s[j]
  }

  /** Two ascending lists with the same elements are the same list. */
  lemma {:induction false} SortedUnique(a: seq<int>, b: seq<int>)
    requires StrictlyIncreasing(a) && StrictlyIncreasing(b)
    requires forall y :: y in a <==> y in b
    ensures a == b
  {
    assert b != [] ==> b[0] in b;
    if a == [] {
    } else {
      assert a[0] in a;
      assert a[0] in b;
      assert b[0] in b;
      assert b[0] in a;
      assert a[0] == b[0];
      TailMembers(a);
      TailMembers(b);
      SortedUnique(a[1..], b[1..]);
    }
  }

  lemma TailMembers(s: seq<int>)
    requires StrictlyIncreasing(s) && s != []
    ensures forall y :: y in s[1..] <==> y in s && y != s[0]
  {
    forall y ensures y in s[1..] <==> y in s && y != s[0] {
      if y in s[1..] {
        var k :| 0 <= k < |s[1..]| && s[1..][k] == y;
        assert s[k + 1] == y;
      }
      if y in s && y != s[0] {
        var k :| 0 <= k < |s| && s[k] == y;
        assert s[1..][k - 1] == y;
      }
    }
  }

  /** Some element of a non-empty set, in no particular order (a `for … of` over a JavaScript `Set` or a Python dict). */
  method Pick<T>(s: set<T>) returns (x: T)
    requires s != {}
    ensures x in s
  {
    x :| x in s;
  }
}
