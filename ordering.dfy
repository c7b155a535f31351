/**
 * Python's string order and the ordered listings the handlers get back from
 * the database: a scan sorted with list.sort (get_feed) and index queries
 * returned in sort-key order (get_user_posts, get_comments, the likes of one
 * target).
 */
module Ordering {

  /** Python `a <= b` on str: code point by code point, a prefix first. */
  predicate LexLe(a: string, b: string)
    decreases |a|
  {
    a == [] || (b != [] && (a[0] < b[0] || (a[0] == b[0] && LexLe(a[1..], b[1..]))))
  }

  lemma {:induction false} LexLeRefl(a: string)
    ensures LexLe(a, a)
    decreases |a|
  {
    if a != [] {
      LexLeRefl(a[1..]);
    }
  }

  lemma {:induction false} LexLeTotal(a: string, b: string)
    ensures LexLe(a, b) || LexLe(b, a)
    decreases |a|
  {
    if a != [] && b != [] && a[0] == b[0] {
      LexLeTotal(a[1..], b[1..]);
    }
  }

  lemma {:induction false} LexLeTrans(a: string, b: string, c: string)
    requires LexLe(a, b) && LexLe(b, c)
    ensures LexLe(a, c)
    decreases |a|
  {
    if a != [] && b != [] && c != [] && a[0] == b[0] && b[0] == c[0] {
      LexLeTrans(a[1..], b[1..], c[1..]);
    }
  }

  lemma {:induction false} LexLeAntisymmetric(a: string, b: string)
    requires LexLe(a, b) && LexLe(b, a)
    ensures a == b
    decreases |a|
  {
    if a != [] {
      LexLeAntisymmetric(a[1..], b[1..]);
      assert a == [a[0]] + a[1..] && b == [b[0]] + b[1..];
    }
  }

  /** Key a may be listed before key b: ascending, or descending (`reverse=True`). */
  predicate Before(descending: bool, a: string, b: string) {
    if descending then LexLe(b, a) else LexLe(a, b)
  }

  lemma BeforeRefl(descending: bool, a: string)
    ensures Before(descending, a, a)
  {
    LexLeRefl(a);
  }

  lemma BeforeTotal(descending: bool, a: string, b: string)
    ensures Before(descending, a, b) || Before(descending, b, a)
  {
    LexLeTotal(a, b);
  }

  lemma BeforeTrans(descending: bool, a: string, b: string, c: string)
    requires Before(descending, a, b) && Before(descending, b, c)
    ensures Before(descending, a, c)
  {
    if descending {
      LexLeTrans(c, b, a);
    } else {
      LexLeTrans(a, b, c);
    }
  }

  predicate Distinct<K(==)>(s: seq<K>) {
    forall i, j :: 0 <= i < j < |s| ==> s[i] != s[j]
  }

  predicate Ordered<K>(s: seq<K>, keyOf: K -> string, descending: bool) {
    forall i, j :: 0 <= i < j < |s| ==> Before(descending, keyOf(s[i]), keyOf(s[j]))
  }

  /** Every finite, non-empty set of items has one whose key may come first. */
  lemma {:induction false} HasFirst<K>(s: set<K>, keyOf: K -> string, descending: bool)
    requires s != {}
    ensures exists m :: m in s && forall y :: y in s ==> Before(descending, keyOf(m), keyOf(y))
    decreases |s|
  {
    var x :| x in s;
    if s == {x} {
      BeforeRefl(descending, keyOf(x));
    } else {
      HasFirst(s - {x}, keyOf, descending);
      var m :| m in s - {x} && forall y :: y in s - {x} ==> Before(descending, keyOf(m), keyOf(y));
      BeforeRefl(descending, keyOf(x));
      if Before(descending, keyOf(m), keyOf(x)) {
        assert forall y :: y in s ==> Before(descending, keyOf(m), keyOf(y));
      } else {
        BeforeTotal(descending, keyOf(m), keyOf(x));
        forall y | y in s
          ensures Before(descending, keyOf(x), keyOf(y))
        {
          if y != x {
            BeforeTrans(descending, keyOf(x), keyOf(m), keyOf(y));
          }
        }
      }
    }
  }

  /**
   * The items of ks in an order sorted by keyOf. The table hands them over in
   * no particular order and a stable sort keeps ties in that order, so any
   * order sorted by key can come out; each step takes any remaining item whose
   * key may come first.
   */
  method ScanSorted<K(==)>(ks: set<K>, keyOf: K -> string, descending: bool) returns (order: seq<K>)
    ensures Distinct(order)
    ensures forall k :: k in order <==> k in ks
    ensures |order| == |ks|
    ensures Ordered(order, keyOf, descending)
  {
    var rest := ks;
    order := [];
    while rest != {}
      invariant rest <= ks
      invariant forall k :: k in order <==> k in ks && k !in rest
      invariant Distinct(order)
      invariant |order| + |rest| == |ks|
      invariant Ordered(order, keyOf, descending)
      invariant forall i, y :: 0 <= i < |order| && y in rest ==> Before(descending, keyOf(order[i]), keyOf(y))
      decreases |rest|
    {
      HasFirst(rest, keyOf, descending);
      var k :| k in rest && forall y :: y in rest ==> Before(descending, keyOf(k), keyOf(y));
      order := order + [k];
      rest := rest - {k};
    }
  }
}
