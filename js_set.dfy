/**
 * A JavaScript `Set` as the sequence of its members in insertion order
 * (the order `forEach` and `Array.from` visit them).
 */
module JsSet {

  predicate NoDuplicates<T(==)>(s: seq<T>) {
    forall i, j :: 0 <= i < j < |s| ==> s[i] != s[j]
  }

  /** `set.add(x)`: a new member goes to the end, an existing one stays where it is. */
  function Add<T(==)>(s: seq<T>, x: T): (r: seq<T>)
    ensures NoDuplicates(s) ==> NoDuplicates(r)
    ensures x in s ==> r == s
    ensures x !in s ==> r == s + [x]
  {
    if x in s then s else s + [x]
  }

  /** `set.delete(x)`. */
  function Delete<T(==)>(s: seq<T>, x: T): (r: seq<T>)
    ensures |r| <= |s|
  {
    if s == [] then []
    else (if s[0] == x then [] else [s[0]]) + Delete(s[1..], x)
  }

  /** `new Set(array)`: the first occurrence of each element, in order. */
  function FromArray<T(==)>(a: seq<T>): (r: seq<T>)
    ensures NoDuplicates(r)
    decreases |a|
  {
    if a == [] then [] else Add(FromArray(a[..|a| - 1]), a[|a| - 1])
  }

  lemma {:induction false} DeleteMembers<T>(s: seq<T>, x: T)
    ensures forall y :: y in Delete(s, x) <==> y in s && y != x
  {
    if s != [] {
      DeleteMembers(s[1..], x);
      assert s == [s[0]] + s[1..];
    }
  }

  lemma {:induction false} DeleteAbsent<T>(s: seq<T>, x: T)
    requires x !in s
    ensures Delete(s, x) == s
  {
    if s != [] {
      DeleteAbsent(s[1..], x);
      assert s == [s[0]] + s[1..];
    }
  }

  lemma {:induction false} DeleteConcat<T>(a: seq<T>, b: seq<T>, x: T)
    ensures Delete(a + b, x) == Delete(a, x) + Delete(b, x)
  {
    if a != [] {
      assert (a + b)[1..] == a[1..] + b;
      DeleteConcat(a[1..], b, x);
    } else {
      assert a + b == b;
    }
  }

  /** Deleting a member removes exactly its one occurrence and keeps the rest in order. */
  lemma DeleteMember<T>(a: seq<T>, x: T, b: seq<T>)
    requires x !in a && x !in b
    ensures Delete(a + [x] + b, x) == a + b
  {
    calc {
      Delete(a + [x] + b, x);
      { DeleteConcat(a + [x], b, x); }
      Delete(a + [x], x) + Delete(b, x);
      { DeleteConcat(a, [x], x); }
      Delete(a, x) + Delete([x], x) + Delete(b, x);
      { assert Delete([x], x) == []; DeleteAbsent(a, x); DeleteAbsent(b, x); }
      a + [] + b;
    }
    assert a + [] + b == a + b;
  }

  lemma {:induction false} DeleteKeepsNoDuplicates<T>(s: seq<T>, x: T)
    requires NoDuplicates(s)
    ensures NoDuplicates(Delete(s, x))
  {
    if s != [] {
      DeleteKeepsNoDuplicates(s[1..], x);
      DeleteMembers(s[1..], x);
      assert s[0] !in s[1..] by {
        forall k | 0 <= k < |s[1..]| ensures s[1..][k] != s[0] {
          assert s[1..][k] == s[k + 1];
        }
      }
    }
  }

  lemma {:induction false} FromArrayMembers<T>(a: seq<T>)
    ensures forall y :: y in FromArray(a) <==> y in a
    decreases |a|
  {
    if a != [] {
      FromArrayMembers(a[..|a| - 1]);
      assert a == a[..|a| - 1] + [a[|a| - 1]];
    }
  }

  /** A sequence that already has no duplicates is its own `Set`. */
  lemma {:induction false} FromArrayOfSet<T>(a: seq<T>)
    requires NoDuplicates(a)
    ensures FromArray(a) == a
    decreases |a|
  {
    if a != [] {
      var init := a[..|a| - 1];
      assert NoDuplicates(init) by {
        forall i, j | 0 <= i < j < |init| ensures init[i] != init[j] {
          assert init[i] == a[i] && init[j] == a[j];
        }
      }
      FromArrayOfSet(init);
      assert FromArray(a) == Add(FromArray(init), a[|a| - 1]);
      assert a[|a| - 1] !in init by {
        forall k | 0 <= k < |init| ensures init[k] != a[|a| - 1] {
          assert init[k] == a[k];
        }
      }
      assert a == init + [a[|a| - 1]];
    }
  }

  /** Adding a new member and deleting it again gives back the original set. */
  lemma DeleteUndoesAdd<T>(s: seq<T>, x: T)
    requires x !in s
    ensures Delete(Add(s, x), x) == s
  {
    DeleteMember(s, x, []);
    assert s + [x] + [] == s + [x];
  }
}
