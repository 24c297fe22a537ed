/** Sums over finite sets: what counting rows and adding up columns needs. */
module FiniteSum {

  ghost function Sum<K(!new)>(s: set<K>, f: K -> int): int
  {
    if s == {} then 0 else var k :| k in s; f(k) + Sum(s - {k}, f)
  }

  /** The element taken out first does not matter. */
  lemma {:induction false} SumTake<K(!new)>(s: set<K>, f: K -> int, k: K)
    requires k in s
    ensures Sum(s, f) == f(k) + Sum(s - {k}, f)
    decreases s
  {
    var first :| first in s && Sum(s, f) == f(first) + Sum(s - {first}, f);
    if first != k {
      SumTake(s - {first}, f, k);
      SumTake(s - {k}, f, first);
      assert s - {first} - {k} == s - {k} - {first};
    }
  }

  lemma {:induction false} SumLe<K(!new)>(s: set<K>, f: K -> int, g: K -> int)
    requires forall k :: k in s ==> f(k) <= g(k)
    ensures Sum(s, f) <= Sum(s, g)
    decreases s
  {
    if s != {} {
      var k :| k in s;
      SumTake(s, f, k);
      SumTake(s, g, k);
      SumLe(s - {k}, f, g);
    }
  }

  lemma SumLt<K(!new)>(s: set<K>, f: K -> int, g: K -> int, k: K)
    requires forall j :: j in s ==> f(j) <= g(j)
    requires k in s && f(k) < g(k)
    ensures Sum(s, f) < Sum(s, g)
  {
    SumTake(s, f, k);
    SumTake(s, g, k);
    SumLe(s - {k}, f, g);
  }

  /** Elements of weight zero add nothing. */
  lemma {:induction false} SumExtend<K(!new)>(s: set<K>, larger: set<K>, f: K -> int)
    requires s <= larger
    requires forall k :: k in larger && k !in s ==> f(k) == 0
    ensures Sum(larger, f) == Sum(s, f)
    decreases larger
  {
    if larger == s {
    } else {
      var k :| k in larger && k !in s;
      SumTake(larger, f, k);
      SumExtend(s, larger - {k}, f);
    }
  }

  lemma {:induction false} SumNonNegative<K(!new)>(s: set<K>, f: K -> int)
    requires forall k :: k in s ==> f(k) >= 0
    ensures Sum(s, f) >= 0
    decreases s
  {
    if s != {} {
      var k :| k in s;
      SumTake(s, f, k);
      SumNonNegative(s - {k}, f);
    }
  }
}
