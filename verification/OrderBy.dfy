/** `SELECT ... ORDER BY ... LIMIT n` over a finite set of keys, ties in any order. */
module OrderBy {

  /** `le` orders the elements of `s`, possibly with ties. */
  ghost predicate OrdersAll<K(!new)>(s: set<K>, le: (K, K) -> bool) {
    && (forall k, l :: k in s && l in s ==> le(k, l) || le(l, k))
    && (forall j, k, l :: j in s && k in s && l in s && le(j, k) && le(k, l) ==> le(j, l))
  }

  ghost predicate Distinct<K>(r: seq<K>) {
    forall i, j :: 0 <= i < j < |r| ==> r[i] != r[j]
  }

  ghost predicate Ordered<K>(le: (K, K) -> bool, r: seq<K>) {
    forall i, j :: 0 <= i < j < |r| ==> le(r[i], r[j])
  }

  /** `r` lists the elements of `s`, each once, in order. */
  ghost predicate Lists<K(!new)>(s: set<K>, le: (K, K) -> bool, r: seq<K>) {
    && (forall k :: k in r <==> k in s)
    && Distinct(r)
    && Ordered(le, r)
  }

  /** `r` is what LIMIT leaves: at most `limit` elements of `s`, and nothing outside comes before them. */
  ghost predicate IsTop<K(!new)>(s: set<K>, le: (K, K) -> bool, limit: nat, r: seq<K>) {
    && (forall k :: k in r ==> k in s)
    && Distinct(r)
    && Ordered(le, r)
    && |r| <= limit
    && (|r| < limit ==> forall k :: k in s ==> k in r)
    && (forall k, l :: k in r && l in s && l !in r ==> le(k, l))
  }

  lemma {:induction false} DistinctCount<K(!new)>(r: seq<K>, s: set<K>)
    requires Distinct(r) && forall k :: k in r <==> k in s
    ensures |s| == |r|
    decreases |r|
  {
    if r == [] {
      assert s == {};
    } else {
      var last := r[|r| - 1];
      var rest := r[..|r| - 1];
      assert r == rest + [last];
      forall k
        ensures k in rest <==> k in s - {last}
      {
        assert k in r <==> k in rest || k == last;
      }
      DistinctCount(rest, s - {last});
    }
  }

  method First<K(!new, ==)>(s: set<K>, le: (K, K) -> bool) returns (k: K)
    requires s != {} && OrdersAll(s, le)
    ensures k in s && forall l :: l in s ==> le(k, l)
  {
    k :| k in s;
    var rest := s - {k};
    while rest != {}
      invariant k in s && rest <= s
      invariant forall l :: l in s && l !in rest ==> le(k, l)
      decreases rest
    {
      var l :| l in rest;
      if !le(k, l) {
        k := l;
      }
      rest := rest - {l};
    }
  }

  method Select<K(!new, ==)>(s: set<K>, le: (K, K) -> bool) returns (r: seq<K>)
    requires OrdersAll(s, le)
    ensures Lists(s, le, r) && |r| == |s|
  {
    r := [];
    var rest := s;
    while rest != {}
      invariant rest <= s
      invariant forall k :: k in r <==> k in s && k !in rest
      invariant Distinct(r) && Ordered(le, r)
      invariant forall k, l :: k in r && l in rest ==> le(k, l)
      decreases rest
    {
      var k := First(rest, le);
      r := r + [k];
      rest := rest - {k};
    }
    DistinctCount(r, s);
  }

  method SelectLimit<K(!new, ==)>(s: set<K>, le: (K, K) -> bool, limit: nat) returns (r: seq<K>)
    requires OrdersAll(s, le)
    ensures IsTop(s, le, limit, r)
  {
    var all := Select(s, le);
    r := if |all| <= limit then all else all[..limit];
    TakeIsTop(s, le, limit, all, r);
  }

  lemma TakeIsTop<K(!new)>(s: set<K>, le: (K, K) -> bool, limit: nat, all: seq<K>, r: seq<K>)
    requires Lists(s, le, all) && r == if |all| <= limit then all else all[..limit]
    ensures IsTop(s, le, limit, r)
  {
    forall i | 0 <= i < |r|
      ensures r[i] == all[i]
    {
    }
    forall k | k in r
      ensures k in s
    {
      assert k in all;
    }
    forall k, l | k in r && l in s && l !in r
      ensures le(k, l)
    {
      var i :| 0 <= i < |r| && r[i] == k;
      assert l in all;
      var j :| 0 <= j < |all| && all[j] == l;
      assert forall m :: 0 <= m < |r| ==> all[m] in r;
    }
  }
}
