/** Joining, ordering and printing text. The order is the one on sequences of characters. */
module Strings {

  // --- Array.prototype.join ---

  function Join(parts: seq<string>, sep: char): string
    requires parts != []
  {
    if |parts| == 1 then parts[0] else parts[0] + [sep] + Join(parts[1..], sep)
  }

  predicate Free(s: string, sep: char) {
    sep !in s
  }

  predicate AllFree(parts: seq<string>, sep: char) {
    forall i :: 0 <= i < |parts| ==> Free(parts[i], sep)
  }

  lemma SplitAtSeparator(a: string, b: string, sep: char, c: string, d: string)
    requires Free(a, sep) && Free(b, sep) && a + [sep] + c == b + [sep] + d
    ensures a == b && c == d
  {
    var s := a + [sep] + c;
    assert s[|a|] == sep && s[|b|] == sep;
    assert forall i :: 0 <= i < |a| ==> s[i] == a[i] && a[i] != sep;
    assert forall i :: 0 <= i < |b| ==> s[i] == b[i] && b[i] != sep;
    assert |a| == |b|;
    assert a == s[..|a|] && b == s[..|b|];
    assert c == s[|a| + 1..] && d == s[|b| + 1..];
  }

  /** A joined text of separator-free parts determines the parts. */
  lemma {:induction false} JoinInjective(a: seq<string>, b: seq<string>, sep: char)
    requires a != [] && b != [] && AllFree(a, sep) && AllFree(b, sep) && Join(a, sep) == Join(b, sep)
    ensures a == b
    decreases |a|
  {
    SeparatorIffMany(a, sep);
    SeparatorIffMany(b, sep);
    if |a| > 1 {
      SplitAtSeparator(a[0], b[0], sep, Join(a[1..], sep), Join(b[1..], sep));
      JoinInjective(a[1..], b[1..], sep);
      assert a == [a[0]] + a[1..] && b == [b[0]] + b[1..];
    }
  }

  lemma SeparatorIffMany(parts: seq<string>, sep: char)
    requires parts != [] && AllFree(parts, sep)
    ensures sep in Join(parts, sep) <==> |parts| > 1
  {
    assert Free(parts[0], sep);
    if |parts| > 1 {
      assert Join(parts, sep)[|parts[0]|] == sep;
    }
  }

  /** Joining adds no character but the separator. */
  lemma {:induction false} JoinFree(parts: seq<string>, sep: char, other: char)
    requires parts != [] && sep != other && AllFree(parts, other)
    ensures Free(Join(parts, sep), other)
    decreases |parts|
  {
    assert Free(parts[0], other);
    if |parts| > 1 {
      JoinFree(parts[1..], sep, other);
    }
  }

  // --- cutting at the separator ---

  /** `s` cut at every separator. */
  function Split(s: string, sep: char): (r: seq<string>)
    ensures r != []
  {
    if s == [] then [""]
    else if s[0] == sep then [""] + Split(s[1..], sep)
    else
      var rest := Split(s[1..], sep);
      [[s[0]] + rest[0]] + rest[1..]
  }

  /** The pieces of all parts, in order. */
  function Pieces(parts: seq<string>, sep: char): seq<string> {
    if parts == [] then [] else Split(parts[0], sep) + Pieces(parts[1..], sep)
  }

  lemma {:induction false} SplitJoins(s: string, sep: char)
    ensures AllFree(Split(s, sep), sep) && Join(Split(s, sep), sep) == s
    decreases |s|
  {
    if s != [] {
      SplitJoins(s[1..], sep);
      var rest := Split(s[1..], sep);
      assert s == [s[0]] + s[1..];
      if s[0] == sep {
        assert ([""] + rest)[1..] == rest;
      } else {
        var r := [[s[0]] + rest[0]] + rest[1..];
        assert r[1..] == rest[1..] && Free(rest[0], sep);
        assert forall i :: 0 < i < |r| ==> r[i] == rest[i] && Free(rest[i], sep);
      }
    }
  }

  lemma {:induction false} JoinAppend(a: seq<string>, b: seq<string>, sep: char)
    requires a != [] && b != []
    ensures Join(a + b, sep) == Join(a, sep) + [sep] + Join(b, sep)
    decreases |a|
  {
    assert (a + b)[0] == a[0] && (a + b)[1..] == a[1..] + b;
    if |a| > 1 {
      JoinAppend(a[1..], b, sep);
    } else {
      assert a[1..] + b == b;
    }
  }

  lemma {:induction false} PiecesJoin(parts: seq<string>, sep: char)
    requires parts != []
    ensures var r := Pieces(parts, sep); r != [] && AllFree(r, sep) && Join(r, sep) == Join(parts, sep)
    decreases |parts|
  {
    SplitJoins(parts[0], sep);
    if |parts| > 1 {
      PiecesJoin(parts[1..], sep);
      JoinAppend(Split(parts[0], sep), Pieces(parts[1..], sep), sep);
    } else {
      assert Pieces(parts, sep) == Split(parts[0], sep);
    }
  }

  /** Joined texts are equal exactly when their parts, cut at the separator, give the same pieces. */
  lemma JoinEqualIff(a: seq<string>, b: seq<string>, sep: char)
    requires a != [] && b != []
    ensures Join(a, sep) == Join(b, sep) <==> Pieces(a, sep) == Pieces(b, sep)
  {
    PiecesJoin(a, sep);
    PiecesJoin(b, sep);
    if Join(a, sep) == Join(b, sep) {
      JoinInjective(Pieces(a, sep), Pieces(b, sep), sep);
    }
  }

  /** Parts without a separator are their own pieces. */
  lemma {:induction false} FreePieces(parts: seq<string>, sep: char)
    requires AllFree(parts, sep)
    ensures Pieces(parts, sep) == parts
    decreases |parts|
  {
    if parts != [] {
      assert Free(parts[0], sep);
      FreeSplit(parts[0], sep);
      FreePieces(parts[1..], sep);
    }
  }

  lemma {:induction false} FreeSplit(s: string, sep: char)
    requires Free(s, sep)
    ensures Split(s, sep) == [s]
    decreases |s|
  {
    if s != [] {
      assert s[0] in s && s == [s[0]] + s[1..];
      FreeSplit(s[1..], sep);
    }
  }

  // --- the order of Array.prototype.sort and of SQLite's BINARY collation ---

  /** Strictly before: a proper prefix, or a smaller unit at the first difference. */
  predicate Less(a: string, b: string) {
    if b == [] then false
    else if a == [] then true
    else if a[0] == b[0] then Less(a[1..], b[1..])
    else a[0] < b[0]
  }

  lemma {:induction false} LessTotal(a: string, b: string)
    ensures Less(a, b) || Less(b, a) || a == b
    ensures !(Less(a, b) && Less(b, a))
    ensures !Less(a, a)
    decreases |a|
  {
    if a != [] && b != [] && a[0] == b[0] {
      LessTotal(a[1..], b[1..]);
      assert a == [a[0]] + a[1..] && b == [b[0]] + b[1..];
    }
    if a != [] {
      LessTotal(a[1..], a[1..]);
    }
  }

  lemma {:induction false} LessTransitive(a: string, b: string, c: string)
    requires Less(a, b) && Less(b, c)
    ensures Less(a, c)
    decreases |a|
  {
    if a != [] && a[0] == b[0] == c[0] {
      LessTransitive(a[1..], b[1..], c[1..]);
    }
  }

  predicate StrictlySorted(s: seq<string>) {
    forall i, j :: 0 <= i < j < |s| ==> Less(s[i], s[j])
  }

  function Insert(x: string, sorted: seq<string>): seq<string> {
    if sorted == [] then [x]
    else if x == sorted[0] then sorted
    else if Less(x, sorted[0]) then [x] + sorted
    else [sorted[0]] + Insert(x, sorted[1..])
  }

  /** `[...new Set(xs)].sort()`. */
  function SortedSet(xs: seq<string>): seq<string> {
    if xs == [] then [] else Insert(xs[0], SortedSet(xs[1..]))
  }

  lemma {:induction false} InsertSorts(x: string, sorted: seq<string>)
    requires StrictlySorted(sorted)
    ensures StrictlySorted(Insert(x, sorted))
    ensures forall y :: y in Insert(x, sorted) <==> y == x || y in sorted
    decreases |sorted|
  {
    if sorted != [] && x != sorted[0] {
      var head, rest := sorted[0], sorted[1..];
      assert sorted == [head] + rest;
      forall y | y in rest
        ensures Less(head, y)
      {
        var i :| 0 <= i < |rest| && rest[i] == y;
        assert Less(sorted[0], sorted[i + 1]);
      }
      if Less(x, head) {
        forall y | y in rest
          ensures Less(x, y)
        {
          LessTransitive(x, head, y);
        }
      } else {
        LessTotal(x, head);
        InsertSorts(x, rest);
        var more := Insert(x, rest);
        forall i | 0 <= i < |more|
          ensures Less(head, more[i])
        {
          assert more[i] in more;
        }
      }
    }
  }

  lemma {:induction false} SortedSetSorts(xs: seq<string>)
    ensures StrictlySorted(SortedSet(xs))
    ensures forall y :: y in SortedSet(xs) <==> y in xs
    decreases |xs|
  {
    if xs != [] {
      SortedSetSorts(xs[1..]);
      InsertSorts(xs[0], SortedSet(xs[1..]));
      assert xs == [xs[0]] + xs[1..];
    }
  }

  /** A set has one strictly sorted listing. */
  lemma {:induction false} SortedUnique(a: seq<string>, b: seq<string>)
    requires StrictlySorted(a) && StrictlySorted(b) && forall y :: y in a <==> y in b
    ensures a == b
    decreases |a|
  {
    assert forall i :: 0 <= i < |b| ==> b[i] in a;
    assert forall i :: 0 <= i < |a| ==> a[i] in b;
    if a != [] {
      FirstIsLeast(a, b[0]);
      FirstIsLeast(b, a[0]);
      LessTotal(a[0], b[0]);
      var first := a[0];
      RestWithout(a);
      RestWithout(b);
      SortedUnique(a[1..], b[1..]);
      assert a == [first] + a[1..] && b == [first] + b[1..];
    }
  }

  lemma FirstIsLeast(a: seq<string>, y: string)
    requires StrictlySorted(a) && y in a
    ensures y == a[0] || Less(a[0], y)
  {
    var i :| 0 <= i < |a| && a[i] == y;
  }

  lemma RestWithout(a: seq<string>)
    requires StrictlySorted(a) && a != []
    ensures StrictlySorted(a[1..])
    ensures forall y :: y in a[1..] <==> y in a && y != a[0]
  {
    assert a == [a[0]] + a[1..];
    forall y | y in a[1..]
      ensures y != a[0]
    {
      var i :| 0 <= i < |a[1..]| && a[1..][i] == y;
      assert Less(a[0], a[i + 1]);
      LessTotal(a[0], a[0]);
    }
  }

  /** Sorting without duplicates sees only the set. */
  lemma SortedSetOfSet(xs: seq<string>, ys: seq<string>)
    ensures SortedSet(xs) == SortedSet(ys) <==> forall y :: y in xs <==> y in ys
  {
    SortedSetSorts(xs);
    SortedSetSorts(ys);
    if forall y :: y in xs <==> y in ys {
      SortedUnique(SortedSet(xs), SortedSet(ys));
    }
  }

  // --- numbers as text ---

  function Digit(d: nat): char
    requires d < 10
  {
    "0123456789"[d]
  }

  function Decimal(n: nat): string {
    if n < 10 then [Digit(n)] else Decimal(n / 10) + [Digit(n % 10)]
  }

  predicate IsDigit(c: char) {
    '0' <= c <= '9'
  }

  lemma {:induction false} DecimalDigits(n: nat)
    ensures Decimal(n) != [] && forall i :: 0 <= i < |Decimal(n)| ==> IsDigit(Decimal(n)[i])
    decreases n
  {
    if n >= 10 {
      DecimalDigits(n / 10);
    }
  }

  /** All digits but the last. */
  function Higher(n: nat): string {
    if n < 10 then [] else Decimal(n / 10)
  }

  lemma LastDigit(n: nat)
    ensures Decimal(n) == Higher(n) + [Digit(n % 10)]
    ensures Higher(n) == [] <==> n < 10
  {
    DecimalDigits(n / 10);
  }

  lemma DigitInjective(a: nat, b: nat)
    requires a < 10 && b < 10 && Digit(a) == Digit(b)
    ensures a == b
  {
  }

  /** The decimal text of a number determines it. */
  lemma {:induction false} DecimalInjective(m: nat, n: nat)
    requires Decimal(m) == Decimal(n)
    ensures m == n
    decreases m
  {
    hide Digit, Decimal;
    LastDigit(m);
    LastDigit(n);
    var a := Decimal(m);
    assert a[|a| - 1] == Digit(m % 10) && a[|a| - 1] == Digit(n % 10);
    assert a[..|a| - 1] == Higher(m) && a[..|a| - 1] == Higher(n);
    DigitInjective(m % 10, n % 10);
    if m >= 10 {
      DecimalInjective(m / 10, n / 10);
    }
  }
}
