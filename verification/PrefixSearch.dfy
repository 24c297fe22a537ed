/**
 * Autocomplete by a range on the lowered name standing in for a prefix test. The database compares
 * text by code point; it lowers ASCII letters only, while the caller's prefix is lowered as
 * JavaScript does, which is a parameter here.
 */
module PrefixSearch {
  import opened Options
  import opened OrderBy
  import opened Strings

  const TOP := '\U{FFFF}'

  /** `name >= p AND name < p || U+FFFF`. */
  predicate InRange(name: string, p: string) {
    !Less(name, p) && Less(name, p + [TOP])
  }

  /** Exactly which names the range admits: the prefix itself, or more text that goes on below U+FFFF. */
  lemma {:induction false} RangeIff(name: string, p: string)
    ensures InRange(name, p) <==> p <= name && (|name| > |p| ==> name[|p|] < TOP)
    decreases |p|
  {
    if p == [] {
      assert p + [TOP] == [TOP];
      assert name != [] ==> [TOP][1..] == [] && !Less(name[1..], []);
      assert InRange(name, p) <==> name == [] || name[0] < TOP;
    } else if name == [] {
      assert !InRange(name, p);
    } else if name[0] == p[0] {
      RangeIff(name[1..], p[1..]);
      assert (p + [TOP])[1..] == p[1..] + [TOP];
      assert InRange(name, p) <==> InRange(name[1..], p[1..]);
      assert |name| > |p| ==> name[1..][|p| - 1] == name[|p|];
      assert p <= name <==> p[1..] <= name[1..] by {
        assert p == [p[0]] + p[1..] && name == [name[0]] + name[1..];
      }
    } else {
      assert (p + [TOP])[0] == p[0];
      assert !InRange(name, p);
    }
  }

  /** For names below U+FFFF the range is the prefix test. */
  lemma RangeIsPrefix(name: string, p: string)
    requires forall i :: 0 <= i < |name| ==> name[i] < TOP
    ensures InRange(name, p) <==> p <= name
  {
    RangeIff(name, p);
  }

  /** Which it is not for every text: a name that goes on with U+FFFF is left out. */
  lemma RangeMissesTop(p: string, rest: string)
    ensures p <= p + [TOP] + rest && !InRange(p + [TOP] + rest, p)
  {
    RangeIff(p + [TOP] + rest, p);
    assert (p + [TOP] + rest)[|p|] == TOP;
  }

  // --- lower case, on either side ---

  function LowerChar(c: char): char {
    if 'A' <= c <= 'Z' then c + 32 as char else c
  }

  /** SQLite's LOWER. */
  function LowerAscii(s: string): (r: string)
    ensures |r| == |s|
  {
    seq(|s|, i requires 0 <= i < |s| => LowerChar(s[i]))
  }

  /** The 26 capitals become small letters, and no other character changes. */
  lemma LowerAsciiIs(s: string, i: nat)
    requires i < |s|
    ensures forall n: nat :: n < 26 && s[i] == "ABCDEFGHIJKLMNOPQRSTUVWXYZ"[n] ==> LowerAscii(s)[i] == "abcdefghijklmnopqrstuvwxyz"[n]
    ensures s[i] !in "ABCDEFGHIJKLMNOPQRSTUVWXYZ" ==> LowerAscii(s)[i] == s[i]
  {
    var capitals := "ABCDEFGHIJKLMNOPQRSTUVWXYZ";
    if 'A' <= s[i] <= 'Z' {
      assert capitals[s[i] as int - 'A' as int] == s[i];
    }
  }

  predicate Ascii(s: string) {
    forall i :: 0 <= i < |s| ==> s[i] < '\U{80}'
  }

  predicate SameLetters(a: string, b: string) {
    |a| == |b| && forall i :: 0 <= i < |a| ==> LowerChar(a[i]) == LowerChar(b[i])
  }

  /** Ignoring the case of ASCII letters, the name begins with the prefix. */
  predicate BeginsWith(name: string, p: string) {
    |p| <= |name| && SameLetters(name[..|p|], p)
  }

  lemma LoweredPrefix(name: string, p: string)
    ensures LowerAscii(p) <= LowerAscii(name) <==> BeginsWith(name, p)
  {
    var n, q := LowerAscii(name), LowerAscii(p);
    if |p| <= |name| {
      assert forall i :: 0 <= i < |p| ==> n[i] == LowerChar(name[..|p|][i]);
      assert q <= n <==> forall i :: 0 <= i < |q| ==> n[i] == q[i];
    }
  }

  /** A prefix on which the two notions of lower case agree finds exactly the names that begin with it. */
  lemma AgreedSearchIsExact(name: string, prefix: string, jsLower: string -> string)
    requires jsLower(prefix) == LowerAscii(prefix)
    requires forall i :: 0 <= i < |name| ==> name[i] < TOP
    ensures InRange(LowerAscii(name), jsLower(prefix)) <==> BeginsWith(name, prefix)
  {
    LoweredPrefix(name, prefix);
    RangeIsPrefix(LowerAscii(name), LowerAscii(prefix));
  }

  predicate BelowTop(s: string) {
    forall i :: 0 <= i < |s| ==> s[i] < TOP
  }

  /** The search by this prefix finds exactly the names that begin with it, ignoring the case of ASCII letters. */
  ghost predicate SearchIsExact(prefix: string, jsLower: string -> string) {
    forall name :: BelowTop(name) ==> (InRange(LowerAscii(name), jsLower(prefix)) <==> BeginsWith(name, prefix))
  }

  /** The search is exact for just those prefixes that JavaScript and the database lower alike. */
  lemma SearchIsExactIff(prefix: string, jsLower: string -> string)
    requires BelowTop(prefix)
    ensures SearchIsExact(prefix, jsLower) <==> jsLower(prefix) == LowerAscii(prefix)
  {
    var p, q := jsLower(prefix), LowerAscii(prefix);
    if p == q {
      forall name | BelowTop(name)
        ensures InRange(LowerAscii(name), p) <==> BeginsWith(name, prefix)
      {
        AgreedSearchIsExact(name, prefix, jsLower);
      }
    } else if p <= q {
      // the shorter prefix finds the empty name or a proper prefix of what it should find
      var short := prefix[..|p|];
      assert LowerAscii(short) == q[..|p|] == p;
      RangeIff(p, p);
      assert BelowTop(short) && InRange(LowerAscii(short), p) && !BeginsWith(short, prefix);
    } else {
      RangeIff(q, p);
      assert BeginsWith(prefix, prefix) && !InRange(LowerAscii(prefix), p);
    }
  }

  /** A prefix of ASCII characters is one of them when JavaScript lowers ASCII letters one by one. */
  lemma AsciiSearchIsExact(prefix: string, jsLower: string -> string)
    requires Ascii(prefix)
    requires forall s :: Ascii(s) ==> jsLower(s) == LowerAscii(s)
    ensures SearchIsExact(prefix, jsLower)
  {
    SearchIsExactIff(prefix, jsLower);
  }

  /** A prefix JavaScript lowers otherwise does not even find itself, unless it was cut short and finds too much. */
  lemma OtherCapitalsAreMissed(prefix: string, rest: string, jsLower: string -> string)
    requires !(jsLower(prefix) <= LowerAscii(prefix + rest))
    ensures BeginsWith(prefix + rest, prefix) && !InRange(LowerAscii(prefix + rest), jsLower(prefix))
  {
    RangeIff(LowerAscii(prefix + rest), jsLower(prefix));
    assert (prefix + rest)[..|prefix|] == prefix;
  }

  // --- the query ---

  datatype SymbolRow = SymbolRow(repo: string, name: string, kind: string)

  datatype Query = Query(repo: string, prefix: string, kind: Option<string>, limit: Option<nat>, offset: Option<nat>)

  predicate Selected(row: SymbolRow, q: Query, prefix: string) {
    && row.repo == q.repo && InRange(LowerAscii(row.name), prefix)
    && (q.kind.Some? && q.kind.value != "" ==> row.kind == q.kind.value)
  }

  function ByName(t: map<string, SymbolRow>): (string, string) -> bool {
    (k, l) => k in t && l in t && !Less(LowerAscii(t[l].name), LowerAscii(t[k].name))
  }

  lemma ByNameOrders(t: map<string, SymbolRow>, s: set<string>)
    requires s <= t.Keys
    ensures OrdersAll(s, ByName(t))
  {
    forall k, l | k in s && l in s
      ensures ByName(t)(k, l) || ByName(t)(l, k)
    {
      LessTotal(LowerAscii(t[k].name), LowerAscii(t[l].name));
    }
    forall j, k, l | j in s && k in s && l in s && ByName(t)(j, k) && ByName(t)(k, l)
      ensures ByName(t)(j, l)
    {
      NotLessTransitive(LowerAscii(t[j].name), LowerAscii(t[k].name), LowerAscii(t[l].name));
    }
  }

  lemma NotLessTransitive(a: string, b: string, c: string)
    requires !Less(b, a) && !Less(c, b)
    ensures !Less(c, a)
  {
    LessTotal(a, b);
    LessTotal(b, c);
    LessTotal(a, c);
    if Less(a, b) && Less(b, c) {
      LessTransitive(a, b, c);
    }
  }

  function Hits(t: map<string, SymbolRow>, q: Query, prefix: string): set<string> {
    set k | k in t && Selected(t[k], q, prefix)
  }

  /** The hits, on the columns: this repo, a name in the range, and this kind if one is given. */
  lemma HitsIff(t: map<string, SymbolRow>, q: Query, prefix: string, k: string)
    ensures k in Hits(t, q, prefix) <==>
      && k in t && t[k].repo == q.repo
      && prefix <= LowerAscii(t[k].name) && (|t[k].name| > |prefix| ==> LowerAscii(t[k].name)[|prefix|] < TOP)
      && (q.kind.None? || q.kind.value == "" || q.kind.value == t[k].kind)
  {
    if k in t {
      RangeIff(LowerAscii(t[k].name), prefix);
    }
  }

  /** `page` is the stretch from `offset`, `limit` long, of some listing of `hits` in name order. */
  ghost predicate IsPage(t: map<string, SymbolRow>, hits: set<string>, offset: nat, limit: nat, page: seq<string>) {
    exists all :: Lists(hits, ByName(t), all) && page == all[Min(offset, |all|)..Min(offset + limit, |all|)]
  }

  /** A page of the symbols in range, in name order, and how many there are in all. */
  method SearchByPrefix(t: map<string, SymbolRow>, q: Query, jsLower: string -> string)
    returns (page: seq<string>, total: nat, hasMore: bool)
    ensures total == |Hits(t, q, jsLower(q.prefix))|
    ensures var limit := Min(if q.limit.Some? then q.limit.value else 50, 200);
            var offset := if q.offset.Some? then q.offset.value else 0;
            && IsPage(t, Hits(t, q, jsLower(q.prefix)), offset, limit, page)
            && (hasMore <==> offset + limit < total)
    ensures forall k :: k in page ==> k in Hits(t, q, jsLower(q.prefix))
  {
    var limit := Min(if q.limit.Some? then q.limit.value else 50, 200);
    var offset := if q.offset.Some? then q.offset.value else 0;
    var hits := Hits(t, q, jsLower(q.prefix));
    ByNameOrders(t, hits);
    var all := Select(hits, ByName(t));
    page := all[Min(offset, |all|)..Min(offset + limit, |all|)];
    forall k | k in page
      ensures k in hits
    {
      assert k in all;
    }
    total := |hits|;
    hasMore := offset + limit < total;
  }

  function Min(a: nat, b: nat): nat {
    if a <= b then a else b
  }
}
