/** Sorting as the document store does it for `.sort({...})`: the result is a permutation of
    the matching documents, ordered by the sort key. Documents with equal keys come back in an
    order the store does not promise; the model fixes one (a stable insertion sort), and the
    list routes promise only what holds of every such order. */
module Ordering {

  /** `le` is total and transitive: a sort key, possibly with ties. */
  ghost predicate TotalPreorder<T(!new)>(le: (T, T) -> bool) {
    && (forall a, b :: le(a, b) || le(b, a))
    && (forall a, b, c :: le(a, b) && le(b, c) ==> le(a, c))
  }

  predicate Sorted<T>(s: seq<T>, le: (T, T) -> bool) {
    forall i, j :: 0 <= i < j < |s| ==> le(s[i], s[j])
  }

  /** A sorted list stays sorted under a new head that may precede each of its elements. */
  lemma {:induction false} SortedCons<T>(y: T, rest: seq<T>, le: (T, T) -> bool)
    requires Sorted(rest, le)
    requires forall z :: z in rest ==> le(y, z)
    ensures Sorted([y] + rest, le)
  {
    var r := [y] + rest;
    forall i, j | 0 <= i < j < |r| ensures le(r[i], r[j]) {
      assert r[j] == rest[j - 1];
      if i == 0 {
        assert rest[j - 1] in rest;
      } else {
        assert r[i] == rest[i - 1];
      }
    }
  }

  /** Puts `x` in front of the first element it may precede. */
  function Insert<T(!new)>(x: T, s: seq<T>, le: (T, T) -> bool): (r: seq<T>)
    ensures multiset(r) == multiset(s) + multiset{x}
    ensures TotalPreorder(le) && Sorted(s, le) ==> Sorted(r, le)
  {
    if |s| == 0 then [x]
    else if le(x, s[0]) then
      assert TotalPreorder(le) && Sorted(s, le) ==> Sorted([x] + s, le) by {
        if TotalPreorder(le) && Sorted(s, le) {
          forall z | z in s ensures le(x, z) {
            var k :| 0 <= k < |s| && s[k] == z;
            assert le(s[0], s[k]);
          }
          SortedCons(x, s, le);
        }
      }
      [x] + s
    else
      var rest := Insert(x, s[1..], le);
      assert s == [s[0]] + s[1..];
      assert TotalPreorder(le) && Sorted(s, le) ==> Sorted([s[0]] + rest, le) by {
        if TotalPreorder(le) && Sorted(s, le) {
          assert Sorted(s[1..], le);
          forall z | z in rest ensures le(s[0], z) {
            assert z in multiset(rest);
            if z != x {
              var k :| 0 <= k < |s[1..]| && s[1..][k] == z;
              assert s[k + 1] == z;
            }
          }
          SortedCons(s[0], rest, le);
        }
      }
      [s[0]] + rest
  }

  /** `sort` by `le`: a permutation of `s`, sorted whenever `le` is a total preorder. */
  function SortBy<T(!new)>(s: seq<T>, le: (T, T) -> bool): (r: seq<T>)
    ensures multiset(r) == multiset(s)
    ensures TotalPreorder(le) ==> Sorted(r, le)
  {
    if |s| == 0 then []
    else
      assert s == [s[0]] + s[1..];
      Insert(s[0], SortBy(s[1..], le), le)
  }

  /** Binary string comparison, code point by code point: the store's default order on strings. */
  predicate StrLe(a: string, b: string) {
    |a| == 0 || (|b| > 0 && (a[0] < b[0] || (a[0] == b[0] && StrLe(a[1..], b[1..]))))
  }

  lemma {:induction false} StrLeTotal(a: string, b: string)
    ensures StrLe(a, b) || StrLe(b, a)
  {
    if |a| > 0 && |b| > 0 && a[0] == b[0] {
      StrLeTotal(a[1..], b[1..]);
    }
  }

  lemma {:induction false} StrLeTrans(a: string, b: string, c: string)
    requires StrLe(a, b) && StrLe(b, c)
    ensures StrLe(a, c)
  {
    if |a| > 0 && a[0] == b[0] && b[0] == c[0] {
      StrLeTrans(a[1..], b[1..], c[1..]);
    }
  }

  lemma {:induction false} StrLeAntisym(a: string, b: string)
    requires StrLe(a, b) && StrLe(b, a)
    ensures a == b
  {
    if |a| > 0 {
      StrLeAntisym(a[1..], b[1..]);
      assert a == [a[0]] + a[1..] && b == [b[0]] + b[1..];
    }
  }
}
