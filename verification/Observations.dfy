/**
 * Exploration observations over the code index: idempotent upserts, and the freshness verdicts a
 * refresh draws from the evidence.
 */
module Observations {
  import opened Options
  import opened ObservationIdentity
  import opened Strings

  datatype Freshness = Valid | Stale | Unverifiable

  // --- the code index ---

  datatype Symbol = Symbol(id: string, digest: Fingerprint)

  /** The structural fields behind a symbol's digest: the id is not among them. */
  datatype Fingerprint = Fingerprint(name: string, kind: string, exported: bool, defaultExport: bool,
                                     signature: Option<string>, docComment: Option<string>,
                                     semanticSignature: Option<string>, sourceFingerprint: Option<string>)

  datatype FileRow = FileRow(checksum: Option<string>, indexedAt: Option<int>)

  datatype Index = Index(files: map<(string, string), FileRow>, symbols: map<(string, string), seq<Symbol>>)

  predicate Truthy(o: Option<string>) {
    o.Some? && o.value != ""
  }

  /** The file is indexed, with a checksum. */
  predicate Indexed(index: Index, repo: string, path: string) {
    (repo, path) in index.files && Truthy(index.files[(repo, path)].checksum)
  }

  function SymbolsOf(index: Index, repo: string, path: string): seq<Symbol> {
    if (repo, path) in index.symbols then index.symbols[(repo, path)] else []
  }

  /** `symbols.find(...)` by id and by fingerprint; the length of the list when there is none. */
  function FindId(symbols: seq<Symbol>, id: string): (i: nat)
    ensures i <= |symbols|
    ensures i < |symbols| ==> symbols[i].id == id
    ensures i == |symbols| ==> forall j :: 0 <= j < |symbols| ==> symbols[j].id != id
  {
    if symbols == [] || symbols[0].id == id then 0 else 1 + FindId(symbols[1..], id)
  }

  function FindDigest(symbols: seq<Symbol>, digest: Fingerprint): (i: nat)
    ensures i <= |symbols|
    ensures i < |symbols| ==> symbols[i].digest == digest
    ensures i == |symbols| ==> forall j :: 0 <= j < |symbols| ==> symbols[j].digest != digest
  {
    if symbols == [] || symbols[0].digest == digest then 0 else 1 + FindDigest(symbols[1..], digest)
  }

  // --- one piece of evidence ---

  datatype EvidenceRow = EvidenceRow(id: string, filePath: string, symbolId: Option<string>, startLine: Option<nat>,
                                     endLine: Option<nat>, fileChecksum: Option<string>, digest: Option<Fingerprint>,
                                     indexedAt: Option<int>, commitSha: Option<string>)

  datatype Verdict = Fine | Bad(state: Freshness, reason: string)

  function Judge(index: Index, repo: string, item: EvidenceRow): Verdict {
    if !Indexed(index, repo, item.filePath) then Bad(Unverifiable, "source_not_indexed")
    else if !Truthy(item.symbolId) then
      if Truthy(item.fileChecksum) && item.fileChecksum != index.files[(repo, item.filePath)].checksum
      then Bad(Stale, "file_changed") else Fine
    else
      var symbols := SymbolsOf(index, repo, item.filePath);
      if item.digest.None? then
        if FindId(symbols, item.symbolId.value) < |symbols| then Fine else Bad(Unverifiable, "symbol_not_indexed")
      else if FindDigest(symbols, item.digest.value) < |symbols| then Fine
      else Bad(Stale, if |symbols| > 0 then "symbol_changed" else "symbol_deleted")
  }

  /** Evidence found fine is re-anchored to what was found; other evidence is left alone. */
  function Reanchored(index: Index, repo: string, item: EvidenceRow): EvidenceRow {
    if Judge(index, repo, item).Bad? then item
    else
      var file := index.files[(repo, item.filePath)];
      var anchored := item.(fileChecksum := file.checksum, indexedAt := file.indexedAt);
      if !Truthy(item.symbolId) then anchored.(symbolId := None, digest := None)
      else
        var symbols := SymbolsOf(index, repo, item.filePath);
        var found := symbols[if item.digest.None? then FindId(symbols, item.symbolId.value) else FindDigest(symbols, item.digest.value)];
        anchored.(symbolId := Some(found.id), digest := Some(found.digest))
  }

  /** The file is in the index under a checksum. */
  predicate HasChecksum(index: Index, repo: string, path: string) {
    (repo, path) in index.files && index.files[(repo, path)].checksum.Some? && index.files[(repo, path)].checksum.value != ""
  }

  /** The evidence names a symbol. */
  predicate NamesSymbol(item: EvidenceRow) {
    item.symbolId.Some? && item.symbolId.value != ""
  }

  /**
   * What the evidence points at has changed: without a symbol, the file has another checksum than
   * the one stored; with one, no symbol of the file has the fingerprint stored.
   */
  ghost predicate Changed(index: Index, repo: string, item: EvidenceRow) {
    && HasChecksum(index, repo, item.filePath)
    && if NamesSymbol(item) then
         && item.digest.Some?
         && forall i :: 0 <= i < |SymbolsOf(index, repo, item.filePath)| ==> SymbolsOf(index, repo, item.filePath)[i].digest != item.digest.value
       else
         && item.fileChecksum.Some? && item.fileChecksum.value != ""
         && item.fileChecksum.value != index.files[(repo, item.filePath)].checksum.value
  }

  /** It cannot be looked up: the file is not indexed, or no symbol of it has the id of a symbol without fingerprint. */
  ghost predicate Missing(index: Index, repo: string, item: EvidenceRow) {
    || !HasChecksum(index, repo, item.filePath)
    || (&& NamesSymbol(item) && item.digest.None?
        && forall i :: 0 <= i < |SymbolsOf(index, repo, item.filePath)| ==> SymbolsOf(index, repo, item.filePath)[i].id != item.symbolId.value)
  }

  /** The verdict from the contents of the index: stale exactly when changed, unverifiable exactly when not found; and the reasons. */
  lemma VerdictIff(index: Index, repo: string, item: EvidenceRow)
    ensures var v := Judge(index, repo, item);
            && (v.Bad? && v.state == Stale <==> Changed(index, repo, item))
            && (v.Bad? && v.state == Unverifiable <==> Missing(index, repo, item))
            && (v.Fine? <==> !Changed(index, repo, item) && !Missing(index, repo, item))
            && (Changed(index, repo, item) ==>
                  v.reason == if !NamesSymbol(item) then "file_changed"
                              else if SymbolsOf(index, repo, item.filePath) == [] then "symbol_deleted" else "symbol_changed")
            && (Missing(index, repo, item) ==>
                  v.reason == if HasChecksum(index, repo, item.filePath) then "symbol_not_indexed" else "source_not_indexed")
  {
  }

  /** The anchor after a refresh: of what is there now for evidence found unchanged, and the old one for other evidence. */
  lemma AnchorIsCurrent(index: Index, repo: string, item: EvidenceRow)
    ensures var r := Reanchored(index, repo, item);
            && r == item.(fileChecksum := r.fileChecksum, indexedAt := r.indexedAt, symbolId := r.symbolId, digest := r.digest)
            && (Changed(index, repo, item) || Missing(index, repo, item) ==> r == item)
            && (!Changed(index, repo, item) && !Missing(index, repo, item) ==>
                  && r.fileChecksum == index.files[(repo, item.filePath)].checksum
                  && r.indexedAt == index.files[(repo, item.filePath)].indexedAt
                  && (!NamesSymbol(item) ==> r.symbolId.None? && r.digest.None?)
                  && (NamesSymbol(item) ==>
                        && r.symbolId.Some? && r.digest.Some?
                        && Symbol(r.symbolId.value, r.digest.value) in SymbolsOf(index, repo, item.filePath)
                        && (item.digest.Some? ==> r.digest == item.digest)
                        && (item.digest.None? ==> r.symbolId == item.symbolId)))
  {
    VerdictIff(index, repo, item);
  }

  /** Judging re-anchored evidence against the same index gives the same verdict. */
  lemma JudgedAgain(index: Index, repo: string, item: EvidenceRow)
    ensures Judge(index, repo, Reanchored(index, repo, item)) == Judge(index, repo, item)
  {
  }

  /** Evidence that names an indexed symbol and has no fingerprint yet. */
  predicate FoundById(index: Index, repo: string, item: EvidenceRow) {
    Judge(index, repo, item).Fine? && Truthy(item.symbolId) && item.digest.None?
  }

  /** The first symbol of the file with the fingerprint of the symbol found by id. */
  function FirstTwin(symbols: seq<Symbol>, id: string): Symbol
    requires FindId(symbols, id) < |symbols|
  {
    symbols[FindDigest(symbols, symbols[FindId(symbols, id)].digest)]
  }

  /**
   * A second refresh keeps the anchor of evidence exactly when the symbol it was found by is the
   * first of its file with that fingerprint: from then on the fingerprint decides, not the id.
   */
  lemma AnchorStaysIff(index: Index, repo: string, item: EvidenceRow)
    requires forall i :: 0 <= i < |SymbolsOf(index, repo, item.filePath)| ==> SymbolsOf(index, repo, item.filePath)[i].id != ""
    ensures Reanchored(index, repo, Reanchored(index, repo, item)) == Reanchored(index, repo, item) <==>
            (FoundById(index, repo, item) ==>
              FirstTwin(SymbolsOf(index, repo, item.filePath), item.symbolId.value).id == item.symbolId.value)
  {
  }

  /** The same files, and in each the same symbols in the same order, under other ids. */
  ghost predicate Reindexed(a: Index, b: Index) {
    && (forall f :: f in a.files <==> f in b.files)
    && (forall f :: f in a.files ==> a.files[f].checksum == b.files[f].checksum)
    && (forall repo, path :: |SymbolsOf(a, repo, path)| == |SymbolsOf(b, repo, path)|)
    && (forall repo, path, i :: 0 <= i < |SymbolsOf(a, repo, path)| ==>
          SymbolsOf(a, repo, path)[i].digest == SymbolsOf(b, repo, path)[i].digest)
  }

  /**
   * Re-indexing under new ids does not change the verdict on evidence that carries a fingerprint or
   * names no symbol; for other evidence it stays exactly when the id is found in both or in neither.
   */
  lemma ReindexVerdict(a: Index, b: Index, repo: string, item: EvidenceRow)
    requires Reindexed(a, b)
    ensures item.digest.Some? || !Truthy(item.symbolId) || !Indexed(a, repo, item.filePath) ==> Judge(a, repo, item) == Judge(b, repo, item)
    ensures item.digest.None? && Truthy(item.symbolId) && Indexed(a, repo, item.filePath) ==>
      (Judge(a, repo, item) == Judge(b, repo, item) <==>
        (HasId(SymbolsOf(a, repo, item.filePath), item.symbolId.value) <==> HasId(SymbolsOf(b, repo, item.filePath), item.symbolId.value)))
  {
    var s, t := SymbolsOf(a, repo, item.filePath), SymbolsOf(b, repo, item.filePath);
    assert forall i :: 0 <= i < |s| ==> s[i].digest == t[i].digest;
    if item.digest.Some? {
      SameDigests(s, t, item.digest.value);
    }
  }

  predicate HasId(symbols: seq<Symbol>, id: string) {
    exists i :: 0 <= i < |symbols| && symbols[i].id == id
  }

  lemma {:induction false} SameDigests(s: seq<Symbol>, t: seq<Symbol>, digest: Fingerprint)
    requires |s| == |t| && forall i :: 0 <= i < |s| ==> s[i].digest == t[i].digest
    ensures FindDigest(s, digest) == FindDigest(t, digest)
    decreases |s|
  {
    if s != [] {
      SameDigests(s[1..], t[1..], digest);
    }
  }

  // --- the listing: ORDER BY file_path, start_line, id ---

  /** NULL comes before every line. */
  predicate LineLess(a: Option<nat>, b: Option<nat>) {
    b.Some? && (a.None? || a.value < b.value)
  }

  predicate Precedes(a: EvidenceRow, b: EvidenceRow) {
    || Less(a.filePath, b.filePath)
    || (a.filePath == b.filePath && LineLess(a.startLine, b.startLine))
    || (a.filePath == b.filePath && a.startLine == b.startLine && Less(a.id, b.id))
  }

  lemma PrecedesTotal(a: EvidenceRow, b: EvidenceRow)
    ensures a.id != b.id ==> Precedes(a, b) || Precedes(b, a)
    ensures !(Precedes(a, b) && Precedes(b, a))
  {
    LessTotal(a.filePath, b.filePath);
    LessTotal(a.id, b.id);
  }

  lemma PrecedesTransitive(a: EvidenceRow, b: EvidenceRow, c: EvidenceRow)
    requires Precedes(a, b) && Precedes(b, c)
    ensures Precedes(a, c)
  {
    if Less(a.filePath, b.filePath) && Less(b.filePath, c.filePath) {
      LessTransitive(a.filePath, b.filePath, c.filePath);
    }
    if Less(a.id, b.id) && Less(b.id, c.id) {
      LessTransitive(a.id, b.id, c.id);
    }
  }

  function Place(x: EvidenceRow, listed: seq<EvidenceRow>): seq<EvidenceRow> {
    if listed == [] || Precedes(x, listed[0]) then [x] + listed else [listed[0]] + Place(x, listed[1..])
  }

  /** The rows of one observation as the query lists them. */
  function Listing(items: seq<EvidenceRow>): seq<EvidenceRow> {
    if items == [] then [] else Place(items[0], Listing(items[1..]))
  }

  ghost predicate InOrder(listed: seq<EvidenceRow>) {
    forall i, j :: 0 <= i < j < |listed| ==> Precedes(listed[i], listed[j])
  }

  ghost predicate DistinctIds(items: seq<EvidenceRow>) {
    forall i, j :: 0 <= i < j < |items| ==> items[i].id != items[j].id
  }

  lemma {:induction false} PlaceHolds(x: EvidenceRow, listed: seq<EvidenceRow>)
    ensures forall y :: y in Place(x, listed) <==> y == x || y in listed
    ensures |Place(x, listed)| == |listed| + 1
    decreases |listed|
  {
    if listed != [] && !Precedes(x, listed[0]) {
      PlaceHolds(x, listed[1..]);
      assert listed == [listed[0]] + listed[1..];
    }
  }

  lemma {:induction false} PlaceKeepsOrder(x: EvidenceRow, listed: seq<EvidenceRow>)
    requires InOrder(listed) && forall y :: y in listed ==> y.id != x.id
    ensures InOrder(Place(x, listed))
    decreases |listed|
  {
    hide Precedes;
    if listed != [] {
      var head, rest := listed[0], listed[1..];
      assert listed == [head] + rest;
      assert forall y :: y in rest ==> y in listed && Precedes(head, y);
      if Precedes(x, head) {
        forall y | y in rest
          ensures Precedes(x, y)
        {
          PrecedesTransitive(x, head, y);
        }
      } else {
        PrecedesTotal(x, head);
        PlaceKeepsOrder(x, rest);
        PlaceHolds(x, rest);
        var more := Place(x, rest);
        assert forall i :: 0 <= i < |more| ==> more[i] in more && Precedes(head, more[i]);
      }
    }
  }

  /** The listing has the rows, each once, in order. */
  lemma {:induction false} ListingIsOrdered(items: seq<EvidenceRow>)
    ensures (forall y :: y in Listing(items) <==> y in items) && |Listing(items)| == |items|
    ensures DistinctIds(items) ==> InOrder(Listing(items)) && DistinctIds(Listing(items))
    decreases |items|
  {
    if items != [] {
      var x, rest := items[0], items[1..];
      assert items == [x] + rest;
      ListingIsOrdered(rest);
      PlaceHolds(x, Listing(rest));
      if DistinctIds(items) {
        assert forall y :: y in rest ==> y.id != x.id;
        PlaceKeepsOrder(x, Listing(rest));
        PlaceKeepsDistinct(x, Listing(rest));
      }
    }
  }

  lemma DistinctBehind(head: EvidenceRow, rest: seq<EvidenceRow>)
    requires DistinctIds(rest) && forall y :: y in rest ==> y.id != head.id
    ensures DistinctIds([head] + rest)
  {
    forall i | 0 <= i < |rest|
      ensures rest[i].id != head.id
    {
      assert rest[i] in rest;
    }
  }

  lemma {:induction false} PlaceKeepsDistinct(x: EvidenceRow, listed: seq<EvidenceRow>)
    requires DistinctIds(listed) && forall y :: y in listed ==> y.id != x.id
    ensures DistinctIds(Place(x, listed))
    decreases |listed|
  {
    hide Precedes;
    if listed != [] && !Precedes(x, listed[0]) {
      var head, rest := listed[0], listed[1..];
      assert listed == [head] + rest;
      assert forall i :: 0 <= i < |rest| ==> rest[i] == listed[i + 1] && rest[i].id != head.id;
      assert head in listed;
      PlaceKeepsDistinct(x, rest);
      PlaceHolds(x, rest);
      DistinctBehind(head, Place(x, rest));
    }
  }

  lemma {:induction false} OneOrder(a: seq<EvidenceRow>, b: seq<EvidenceRow>)
    requires InOrder(a) && InOrder(b) && forall y :: y in a <==> y in b
    ensures a == b
    decreases |a|
  {
    hide Precedes;
    assert forall i :: 0 <= i < |b| ==> b[i] in a;
    assert forall i :: 0 <= i < |a| ==> a[i] in b;
    if a != [] {
      HeadIsFirst(a, b[0]);
      HeadIsFirst(b, a[0]);
      PrecedesTotal(a[0], b[0]);
      var head := a[0];
      TailWithout(a);
      TailWithout(b);
      OneOrder(a[1..], b[1..]);
      assert a == [head] + a[1..] && b == [head] + b[1..];
    }
  }

  lemma HeadIsFirst(a: seq<EvidenceRow>, y: EvidenceRow)
    requires InOrder(a) && y in a
    ensures y == a[0] || Precedes(a[0], y)
  {
  }

  lemma TailWithout(a: seq<EvidenceRow>)
    requires InOrder(a) && a != []
    ensures InOrder(a[1..]) && forall y :: y in a[1..] <==> y in a && y != a[0]
  {
    assert a == [a[0]] + a[1..];
    forall y | y in a[1..]
      ensures y != a[0]
    {
      assert Precedes(a[0], y);
      PrecedesTotal(a[0], a[0]);
    }
  }

  /** The listing depends on the rows alone, in whatever order they are stored. */
  lemma ListingIsUnique(a: seq<EvidenceRow>, b: seq<EvidenceRow>)
    requires DistinctIds(a) && DistinctIds(b) && forall y :: y in a <==> y in b
    ensures Listing(a) == Listing(b)
  {
    ListingIsOrdered(a);
    ListingIsOrdered(b);
    OneOrder(Listing(a), Listing(b));
  }

  /** The order, column by column: by path, then rows without a line, then by line, then by id. */
  lemma ListingByColumns(items: seq<EvidenceRow>, i: nat, j: nat)
    requires DistinctIds(items) && i < j < |items|
    ensures |Listing(items)| == |items|
    ensures var a, b := Listing(items)[i], Listing(items)[j];
            && (a.filePath != b.filePath ==> Less(a.filePath, b.filePath))
            && (a.filePath == b.filePath ==>
                  && (a.startLine.None? || (b.startLine.Some? && a.startLine.value <= b.startLine.value))
                  && (a.startLine == b.startLine ==> Less(a.id, b.id)))
  {
    ListingIsOrdered(items);
    var a, b := Listing(items)[i], Listing(items)[j];
    assert Precedes(a, b);
    LessTotal(a.filePath, a.filePath);
  }

  /** A listing in order lists as it stands. */
  lemma {:induction false} ListedAlready(items: seq<EvidenceRow>)
    requires InOrder(items)
    ensures Listing(items) == items
    decreases |items|
  {
    if items != [] {
      ListedAlready(items[1..]);
      assert items == [items[0]] + items[1..];
    }
  }

  /** Re-anchoring touches none of the columns the rows are listed by. */
  lemma {:induction false} ReanchoringKeepsOrder(index: Index, repo: string, items: seq<EvidenceRow>)
    ensures Listing(ReanchoredAll(index, repo, items)) == ReanchoredAll(index, repo, Listing(items))
    decreases |items|
  {
    if items != [] {
      var x, rest := items[0], items[1..];
      assert ReanchoredAll(index, repo, items)[1..] == ReanchoredAll(index, repo, rest);
      ReanchoringKeepsOrder(index, repo, rest);
      PlaceReanchored(index, repo, x, Listing(rest));
    }
  }

  lemma {:induction false} PlaceReanchored(index: Index, repo: string, x: EvidenceRow, listed: seq<EvidenceRow>)
    ensures Place(Reanchored(index, repo, x), ReanchoredAll(index, repo, listed)) == ReanchoredAll(index, repo, Place(x, listed))
    decreases |listed|
  {
    hide Precedes, Reanchored;
    if listed != [] {
      SamePlace(index, repo, x, listed[0]);
      assert ReanchoredAll(index, repo, listed)[1..] == ReanchoredAll(index, repo, listed[1..]);
      PlaceReanchored(index, repo, x, listed[1..]);
    }
  }

  lemma SamePlace(index: Index, repo: string, a: EvidenceRow, b: EvidenceRow)
    ensures Precedes(Reanchored(index, repo, a), Reanchored(index, repo, b)) <==> Precedes(a, b)
  {
  }

  // --- the verdict on an observation ---

  function Verdicts(index: Index, repo: string, items: seq<EvidenceRow>): (r: seq<Verdict>)
    ensures |r| == |items|
  {
    seq(|items|, i requires 0 <= i < |items| => Judge(index, repo, items[i]))
  }

  ghost predicate FirstWith(vs: seq<Verdict>, i: nat, state: Freshness) {
    && i < |vs| && vs[i].Bad? && vs[i].state == state
    && forall j :: 0 <= j < i ==> !(vs[j].Bad? && vs[j].state == state)
  }

  ghost predicate NoneWith(vs: seq<Verdict>, state: Freshness) {
    forall i :: 0 <= i < |vs| ==> !(vs[i].Bad? && vs[i].state == state)
  }

  /** Stale over unverifiable over valid, with the reason of the first item that reaches it. */
  ghost predicate IsWorst(vs: seq<Verdict>, state: Freshness, reason: Option<string>) {
    match state
    case Stale => reason.Some? && exists i: nat :: FirstWith(vs, i, Stale) && vs[i].reason == reason.value
    case Unverifiable => NoneWith(vs, Stale) && reason.Some? && exists i: nat :: FirstWith(vs, i, Unverifiable) && vs[i].reason == reason.value
    case Valid => NoneWith(vs, Stale) && NoneWith(vs, Unverifiable) && reason.None?
  }

  /** The freshness an observation deserves: stale over unverifiable over valid. */
  ghost predicate Deserved(index: Index, repo: string, items: seq<EvidenceRow>, state: Freshness) {
    && (state.Stale? <==> exists i :: 0 <= i < |items| && Changed(index, repo, items[i]))
    && (state.Valid? <==> forall i :: 0 <= i < |items| ==> !Changed(index, repo, items[i]) && !Missing(index, repo, items[i]))
  }

  /** The worst verdict over the evidence is the freshness it deserves, listed in any order. */
  lemma WorstIsDeserved(index: Index, repo: string, items: seq<EvidenceRow>, listed: seq<EvidenceRow>, state: Freshness, reason: Option<string>)
    requires IsWorst(Verdicts(index, repo, listed), state, reason) && forall y :: y in listed <==> y in items
    ensures Deserved(index, repo, items, state)
  {
    hide Judge, Changed, Missing;
    var vs := Verdicts(index, repo, listed);
    forall j | 0 <= j < |listed|
      ensures listed[j] in items
      ensures vs[j].Bad? && vs[j].state == Stale <==> Changed(index, repo, listed[j])
      ensures vs[j].Fine? <==> !Changed(index, repo, listed[j]) && !Missing(index, repo, listed[j])
      ensures vs[j].Bad? ==> !vs[j].state.Valid?
    {
      VerdictIff(index, repo, listed[j]);
    }
    forall i | 0 <= i < |items|
      ensures exists j :: 0 <= j < |listed| && listed[j] == items[i]
    {
      assert items[i] in listed;
    }
  }

  lemma WorstIsUnique(vs: seq<Verdict>, s1: Freshness, r1: Option<string>, s2: Freshness, r2: Option<string>)
    requires IsWorst(vs, s1, r1) && IsWorst(vs, s2, r2)
    ensures s1 == s2 && r1 == r2
  {
    assert s1 == s2;
    if !s1.Valid? {
      var i: nat :| FirstWith(vs, i, s1) && vs[i].reason == r1.value;
      var j: nat :| FirstWith(vs, j, s2) && vs[j].reason == r2.value;
    }
  }

  /** One more verdict, folded in the way `setState` does. */
  function SetState(state: Freshness, reason: Option<string>, v: Verdict): (Freshness, Option<string>) {
    if v.Fine? || state.Stale? || (state.Unverifiable? && v.state.Unverifiable?) then (state, reason)
    else (v.state, Some(v.reason))
  }

  predicate Graded(v: Verdict) {
    v.Bad? ==> !v.state.Valid?
  }

  lemma WorstGrows(vs: seq<Verdict>, v: Verdict, state: Freshness, reason: Option<string>)
    requires IsWorst(vs, state, reason) && Graded(v)
    ensures var (s, r) := SetState(state, reason, v); IsWorst(vs + [v], s, r)
  {
    var more := vs + [v];
    var (s, r) := SetState(state, reason, v);
    assert more[|vs|] == v && forall i :: 0 <= i < |vs| ==> more[i] == vs[i];
    if s != state {
      assert NoneWith(vs, s);
      assert FirstWith(more, |vs|, s);
    } else if !s.Valid? {
      var i: nat :| FirstWith(vs, i, s) && vs[i].reason == reason.value;
      assert FirstWith(more, i, s);
    }
  }

  function ReanchoredAll(index: Index, repo: string, items: seq<EvidenceRow>): (r: seq<EvidenceRow>)
    ensures |r| == |items|
  {
    seq(|items|, i requires 0 <= i < |items| => Reanchored(index, repo, items[i]))
  }

  /** What a refresh leaves of the rows of an observation. */
  function Refreshed(index: Index, repo: string, items: seq<EvidenceRow>): (r: seq<EvidenceRow>)
    ensures |r| == |Listing(items)|
  {
    ReanchoredAll(index, repo, Listing(items))
  }

  /** The refreshed rows are listed in the order in which the old ones were. */
  lemma RefreshKeepsListing(index: Index, repo: string, items: seq<EvidenceRow>)
    requires DistinctIds(items)
    ensures Listing(Refreshed(index, repo, items)) == Refreshed(index, repo, items)
    ensures DistinctIds(Refreshed(index, repo, items))
  {
    hide Reanchored, Precedes;
    var listed := Listing(items);
    ListingIsOrdered(items);
    ListedAlready(listed);
    ReanchoringKeepsOrder(index, repo, listed);
    forall i | 0 <= i < |listed|
      ensures Reanchored(index, repo, listed[i]).id == listed[i].id
    {
      SameId(index, repo, listed[i]);
    }
  }

  lemma SameId(index: Index, repo: string, item: EvidenceRow)
    ensures Reanchored(index, repo, item).id == item.id
  {
  }

  /** A second refresh against an unchanged index finds the same freshness and the same reason. */
  lemma SecondRefreshAgrees(index: Index, repo: string, items: seq<EvidenceRow>, s1: Freshness, r1: Option<string>,
                            s2: Freshness, r2: Option<string>)
    requires DistinctIds(items)
    requires IsWorst(Verdicts(index, repo, Listing(items)), s1, r1)
    requires IsWorst(Verdicts(index, repo, Listing(Refreshed(index, repo, items))), s2, r2)
    ensures s1 == s2 && r1 == r2
  {
    hide Judge, Reanchored, IsWorst, Precedes, Listing;
    RefreshKeepsListing(index, repo, items);
    var listed := Listing(items);
    forall i | 0 <= i < |listed|
      ensures Judge(index, repo, Reanchored(index, repo, listed[i])) == Judge(index, repo, listed[i])
    {
      JudgedAgain(index, repo, listed[i]);
    }
    assert Verdicts(index, repo, Refreshed(index, repo, items)) == Verdicts(index, repo, listed);
    WorstIsUnique(Verdicts(index, repo, listed), s1, r1, s2, r2);
  }

  /** A re-index that gives every symbol a new id leaves freshness and reason of listed, anchored evidence alone. */
  lemma ReindexAgrees(a: Index, b: Index, repo: string, items: seq<EvidenceRow>, s1: Freshness, r1: Option<string>,
                      s2: Freshness, r2: Option<string>)
    requires Reindexed(a, b) && forall i :: 0 <= i < |items| ==> items[i].digest.Some? || !Truthy(items[i].symbolId)
    requires IsWorst(Verdicts(a, repo, items), s1, r1) && IsWorst(Verdicts(b, repo, items), s2, r2)
    ensures s1 == s2 && r1 == r2
  {
    hide Judge, IsWorst, Reindexed;
    forall i | 0 <= i < |items|
      ensures Judge(a, repo, items[i]) == Judge(b, repo, items[i])
    {
      ReindexVerdict(a, b, repo, items[i]);
    }
    assert Verdicts(a, repo, items) == Verdicts(b, repo, items);
    WorstIsUnique(Verdicts(a, repo, items), s1, r1, s2, r2);
  }

  // --- upserts ---

  /** The evidence row an upsert stores: anchored to what the index holds now. */
  function Anchored(index: Index, repo: string, id: string, e: Evidence): EvidenceRow {
    var bare := EvidenceRow(id, e.filePath, e.symbolId, e.startLine, e.endLine, None, None, None, e.commitSha);
    if !Indexed(index, repo, e.filePath) then bare
    else
      var file := index.files[(repo, e.filePath)];
      var dated := bare.(fileChecksum := file.checksum, indexedAt := file.indexedAt);
      if !Truthy(e.symbolId) then dated
      else
        var symbols := SymbolsOf(index, repo, e.filePath);
        var i := FindId(symbols, e.symbolId.value);
        if i < |symbols| then dated.(digest := Some(symbols[i].digest)) else dated
  }

  /** A stored item keeps what it points at, and is anchored to the file and the symbol found by its id, as far as they are indexed. */
  lemma AnchoredToIndex(index: Index, repo: string, id: string, e: Evidence)
    ensures var r := Anchored(index, repo, id, e);
            && r.id == id && r.filePath == e.filePath && r.symbolId == e.symbolId && r.startLine == e.startLine && r.endLine == e.endLine
            && r.commitSha == e.commitSha
            && (!HasChecksum(index, repo, e.filePath) ==> r.fileChecksum.None? && r.indexedAt.None? && r.digest.None?)
            && (HasChecksum(index, repo, e.filePath) ==>
                  && r.fileChecksum == index.files[(repo, e.filePath)].checksum && r.indexedAt == index.files[(repo, e.filePath)].indexedAt
                  && (r.digest.Some? <==> NamesSymbol(r) && HasId(SymbolsOf(index, repo, e.filePath), e.symbolId.value))
                  && (r.digest.Some? ==> Symbol(e.symbolId.value, r.digest.value) in SymbolsOf(index, repo, e.filePath)))
  {
  }

  predicate Verifiable(index: Index, repo: string, e: Evidence) {
    && Indexed(index, repo, e.filePath)
    && (Truthy(e.symbolId) ==> FindId(SymbolsOf(index, repo, e.filePath), e.symbolId.value) < |SymbolsOf(index, repo, e.filePath)|)
  }

  /** Evidence judged right after it is stored is fine exactly when it was verifiable, and never stale. */
  lemma AnchoredIsJudged(index: Index, repo: string, id: string, e: Evidence)
    ensures Judge(index, repo, Anchored(index, repo, id, e)).Fine? <==> Verifiable(index, repo, e)
    ensures !Verifiable(index, repo, e) ==> Judge(index, repo, Anchored(index, repo, id, e)).state == Unverifiable
  {
  }

  predicate AllVerifiable(index: Index, repo: string, evidence: seq<Evidence>) {
    forall i :: 0 <= i < |evidence| ==> Verifiable(index, repo, evidence[i])
  }

  /** A refresh right after an upsert that stored every evidence item agrees with the freshness the upsert wrote. */
  lemma {:induction false} RefreshAgreesWithUpsert(index: Index, repo: string, evidence: seq<Evidence>, items: seq<EvidenceRow>,
                                state: Freshness, reason: Option<string>)
    requires |items| == |evidence|
    requires forall i :: 0 <= i < |items| ==> items[i] == Anchored(index, repo, items[i].id, evidence[i])
    requires IsWorst(Verdicts(index, repo, Listing(items)), state, reason)
    ensures state == if AllVerifiable(index, repo, evidence) then Valid else Unverifiable
  {
    hide Judge, Anchored, Verifiable, Listing;
    var listed := Listing(items);
    var vs := Verdicts(index, repo, listed);
    ListingIsOrdered(items);
    forall i | 0 <= i < |items|
      ensures Judge(index, repo, items[i]).Fine? <==> Verifiable(index, repo, evidence[i])
      ensures Judge(index, repo, items[i]).Bad? ==> Judge(index, repo, items[i]).state == Unverifiable
    {
      AnchoredIsJudged(index, repo, items[i].id, evidence[i]);
    }
    forall y | y in listed
      ensures Judge(index, repo, y).Bad? ==> Judge(index, repo, y).state == Unverifiable && !AllVerifiable(index, repo, evidence)
    {
      var i :| 0 <= i < |items| && items[i] == y;
    }
    assert forall j :: 0 <= j < |listed| ==> listed[j] in listed && vs[j] == Judge(index, repo, listed[j]);
    forall i | 0 <= i < |items| && !Verifiable(index, repo, evidence[i])
      ensures exists j :: 0 <= j < |vs| && vs[j].Bad?
    {
      assert items[i] in listed;
      var j :| 0 <= j < |listed| && listed[j] == items[i];
      assert vs[j].Bad?;
    }
  }

  datatype ObservationRow = ObservationRow(
    owner: string, repo: string, subject: string, fact: string, confidence: real, taskId: Option<string>,
    agent: Option<string>, identity: string, freshness: Freshness, staleReason: Option<string>,
    supersededBy: Option<string>, lastVerifiedAt: Option<int>, createdAt: int, updatedAt: int)

  type Rows = map<string, ObservationRow>

  datatype WriteError = NotFound | SupersedesItself | SupersededNotFound | IdentityTaken

  datatype Result<T> = Ok(value: T) | Err(error: WriteError)

  datatype Written = Written(id: string, created: bool)

  predicate Carries(row: ObservationRow, owner: string, repo: string, identity: string) {
    row.owner == owner && row.repo == repo && row.identity == identity
  }

  ghost predicate Known(rows: Rows, owner: string, repo: string, identity: string) {
    exists id :: id in rows && Carries(rows[id], owner, repo, identity)
  }

  ghost predicate UniqueIdentities(rows: Rows) {
    forall a, b :: a in rows && b in rows && Carries(rows[a], rows[b].owner, rows[b].repo, rows[b].identity) ==> a == b
  }

  function Holding(rows: Rows, owner: string, repo: string, identity: string): set<string> {
    set id | id in rows && Carries(rows[id], owner, repo, identity)
  }

  function RowFrom(owner: string, repo: string, input: ObservationInput, identity: string, verified: bool, createdAt: int,
                   supersededBy: Option<string>, now: int): ObservationRow {
    ObservationRow(owner, repo, input.subject, input.fact, input.confidence, input.taskId, input.agent, identity,
                   if verified then Valid else Unverifiable, if verified then None else Some("source_not_indexed"),
                   supersededBy, if verified then Some(now) else None, createdAt, now)
  }

  /** The row holds what was given; it is valid, and verified now, exactly when all evidence could be verified. */
  lemma RowHoldsInput(owner: string, repo: string, input: ObservationInput, identity: string, verified: bool, createdAt: int,
                      supersededBy: Option<string>, now: int)
    ensures var row := RowFrom(owner, repo, input, identity, verified, createdAt, supersededBy, now);
            && Carries(row, owner, repo, identity)
            && row.subject == input.subject && row.fact == input.fact && row.confidence == input.confidence
            && row.taskId == input.taskId && row.agent == input.agent
            && (row.freshness.Valid? <==> verified) && !row.freshness.Stale?
            && (row.staleReason.None? <==> verified) && (row.lastVerifiedAt == if verified then Some(now) else None)
            && row.createdAt == createdAt && row.updatedAt == now && row.supersededBy == supersededBy
  {
  }

  /** The replaced row is marked stale and points at its successor. */
  function Superseded(row: ObservationRow, successor: string, now: int): ObservationRow {
    row.(freshness := Stale, staleReason := Some("superseded"), supersededBy := Some(successor), updatedAt := now)
  }

  /** Every observation is still there under its identity. */
  ghost predicate StillThere(before: Rows, after: Rows) {
    forall id :: id in before ==> id in after && Carries(after[id], before[id].owner, before[id].repo, before[id].identity)
  }

  lemma KnownStays(before: Rows, after: Rows, owner: string, repo: string, identity: string)
    requires StillThere(before, after) && Known(before, owner, repo, identity)
    ensures Known(after, owner, repo, identity)
  {
    var id :| id in before && Carries(before[id], owner, repo, identity);
    assert id in after && Carries(after[id], owner, repo, identity);
  }

  /** Rewriting one row under its own identity keeps identities unique. */
  lemma RewriteKeepsUnique(rows: Rows, id: string, row: ObservationRow)
    requires UniqueIdentities(rows) && id in rows && Carries(row, rows[id].owner, rows[id].repo, rows[id].identity)
    ensures UniqueIdentities(rows[id := row]) && StillThere(rows, rows[id := row])
  {
    var after := rows[id := row];
    forall a, b | a in after && b in after && Carries(after[a], after[b].owner, after[b].repo, after[b].identity)
      ensures a == b
    {
      assert Carries(rows[a], rows[b].owner, rows[b].repo, rows[b].identity);
    }
  }

  /** So does a row whose identity no other row holds. */
  lemma NewIdentityKeepsUnique(rows: Rows, id: string, row: ObservationRow)
    requires UniqueIdentities(rows)
    requires forall other :: other in rows && other != id ==> !Carries(rows[other], row.owner, row.repo, row.identity)
    ensures UniqueIdentities(rows[id := row])
  {
    var after := rows[id := row];
    forall a, b | a in after && b in after && a != b
      ensures !Carries(after[a], after[b].owner, after[b].repo, after[b].identity)
    {
      if a != id && b != id {
        assert !Carries(rows[a], rows[b].owner, rows[b].repo, rows[b].identity);
      }
    }
  }

  /** `new Map(evidence.map(...))`: one item per identity, the last one, where the first one stood. */
  function KeepLast(evidence: seq<Evidence>): seq<Evidence> {
    if evidence == [] then [] else PutItem(KeepLast(evidence[..|evidence| - 1]), evidence[|evidence| - 1])
  }

  function PutItem(kept: seq<Evidence>, e: Evidence): seq<Evidence> {
    if kept == [] then [e]
    else if EvidenceIdentity(kept[0]) == EvidenceIdentity(e) then [e] + kept[1..]
    else [kept[0]] + PutItem(kept[1..], e)
  }

  ghost predicate OnePerIdentity(kept: seq<Evidence>) {
    forall i, j :: 0 <= i < j < |kept| ==> EvidenceIdentity(kept[i]) != EvidenceIdentity(kept[j])
  }

  ghost predicate Represented(kept: seq<Evidence>, x: Evidence) {
    exists i :: 0 <= i < |kept| && EvidenceIdentity(kept[i]) == EvidenceIdentity(x)
  }

  /** Where an item of `PutItem(kept, e)` comes from: it is `e`, or it stood there before under another identity. */
  lemma {:induction false} PutAt(kept: seq<Evidence>, e: Evidence, i: nat)
    requires OnePerIdentity(kept) && i < |PutItem(kept, e)|
    ensures PutItem(kept, e)[i] == e || (i < |kept| && PutItem(kept, e)[i] == kept[i] && EvidenceIdentity(kept[i]) != EvidenceIdentity(e))
    ensures i < |kept| ==> EvidenceIdentity(PutItem(kept, e)[i]) == EvidenceIdentity(kept[i])
    ensures i >= |kept| ==> forall j :: 0 <= j < |kept| ==> EvidenceIdentity(kept[j]) != EvidenceIdentity(e)
    ensures |kept| <= |PutItem(kept, e)| <= |kept| + 1
    decreases |kept|
  {
    hide EvidenceIdentity;
    if kept != [] {
      if EvidenceIdentity(kept[0]) == EvidenceIdentity(e) {
        if i > 0 {
          assert EvidenceIdentity(kept[0]) != EvidenceIdentity(kept[i]);
        }
      } else {
        var rest := kept[1..];
        assert forall a :: 0 <= a < |rest| ==> rest[a] == kept[a + 1];
        PutAt(rest, e, if i > 0 then i - 1 else 0);
      }
    }
  }

  lemma {:induction false} PutRepresents(kept: seq<Evidence>, e: Evidence)
    ensures Represented(PutItem(kept, e), e)
    decreases |kept|
  {
    hide EvidenceIdentity;
    var put := PutItem(kept, e);
    if kept == [] || EvidenceIdentity(kept[0]) == EvidenceIdentity(e) {
      assert put[0] == e;
    } else {
      PutRepresents(kept[1..], e);
      var more := PutItem(kept[1..], e);
      var i :| 0 <= i < |more| && EvidenceIdentity(more[i]) == EvidenceIdentity(e);
      assert put[i + 1] == more[i];
    }
  }

  lemma PutKeepsOne(kept: seq<Evidence>, e: Evidence)
    requires OnePerIdentity(kept)
    ensures OnePerIdentity(PutItem(kept, e))
    ensures forall x :: Represented(kept, x) ==> Represented(PutItem(kept, e), x)
  {
    hide EvidenceIdentity, PutItem;
    var put := PutItem(kept, e);
    forall i, j | 0 <= i < j < |put|
      ensures EvidenceIdentity(put[i]) != EvidenceIdentity(put[j])
    {
      PutAt(kept, e, i);
      PutAt(kept, e, j);
    }
    forall x | Represented(kept, x)
      ensures Represented(put, x)
    {
      var i :| 0 <= i < |kept| && EvidenceIdentity(kept[i]) == EvidenceIdentity(x);
      PutRepresents(kept, e);
      PutAt(kept, e, 0);
      PutAt(kept, e, i);
    }
  }

  /** What is stored is one item per identity, and the identity of every given item is there. */
  lemma {:induction false} KeptOncePerIdentity(evidence: seq<Evidence>)
    ensures OnePerIdentity(KeepLast(evidence))
    ensures forall i :: 0 <= i < |evidence| ==> Represented(KeepLast(evidence), evidence[i])
    decreases |evidence|
  {
    hide EvidenceIdentity, Represented, OnePerIdentity, PutItem;
    if evidence == [] {
      NothingKept();
    } else {
      var shorter, last := evidence[..|evidence| - 1], evidence[|evidence| - 1];
      KeptOncePerIdentity(shorter);
      PutKeepsOne(KeepLast(shorter), last);
      PutRepresents(KeepLast(shorter), last);
      forall i | 0 <= i < |evidence|
        ensures Represented(KeepLast(evidence), evidence[i])
      {
        if i < |shorter| {
          assert evidence[i] == shorter[i];
        }
      }
    }
  }

  lemma NothingKept()
    ensures OnePerIdentity([])
  {
  }

  /** Of the items of one identity the last one given is stored. */
  lemma {:induction false} KeepsLatest(evidence: seq<Evidence>, i: nat) returns (j: nat)
    requires i < |KeepLast(evidence)|
    ensures j < |evidence| && evidence[j] == KeepLast(evidence)[i]
    ensures forall k :: j < k < |evidence| ==> EvidenceIdentity(evidence[k]) != EvidenceIdentity(evidence[j])
    decreases |evidence|
  {
    hide EvidenceIdentity, PutItem, OnePerIdentity, Represented;
    var shorter, last := evidence[..|evidence| - 1], evidence[|evidence| - 1];
    assert evidence == shorter + [last];
    KeptOncePerIdentity(shorter);
    PutAt(KeepLast(shorter), last, i);
    if KeepLast(evidence)[i] == last {
      j := |evidence| - 1;
    } else {
      j := KeepsLatest(shorter, i);
    }
  }

  /** Distinct items are all stored, in the given order. */
  lemma {:induction false} DistinctItemsStay(evidence: seq<Evidence>)
    requires OnePerIdentity(evidence)
    ensures KeepLast(evidence) == evidence
    decreases |evidence|
  {
    hide EvidenceIdentity;
    if evidence != [] {
      var shorter, last := evidence[..|evidence| - 1], evidence[|evidence| - 1];
      assert evidence == shorter + [last];
      DistinctItemsStay(shorter);
      Appended(shorter, last);
    }
  }

  lemma {:induction false} Appended(kept: seq<Evidence>, e: Evidence)
    requires forall i :: 0 <= i < |kept| ==> EvidenceIdentity(kept[i]) != EvidenceIdentity(e)
    ensures PutItem(kept, e) == kept + [e]
    decreases |kept|
  {
    hide EvidenceIdentity;
    if kept != [] {
      Appended(kept[1..], e);
      assert kept == [kept[0]] + kept[1..];
    }
  }

  /** The loop of a refresh: a running verdict, and the evidence re-anchored as it goes. */
  method JudgeAll(index: Index, repo: string, items: seq<EvidenceRow>)
    returns (state: Freshness, reason: Option<string>, updated: seq<EvidenceRow>)
    ensures IsWorst(Verdicts(index, repo, items), state, reason)
    ensures Deserved(index, repo, items, state)
    ensures updated == ReanchoredAll(index, repo, items)
  {
    hide Deserved;
    state, reason, updated := Freshness.Valid, None, [];
    for i := 0 to |items|
      invariant IsWorst(Verdicts(index, repo, items[..i]), state, reason)
      invariant updated == ReanchoredAll(index, repo, items[..i])
    {
      var v := Judge(index, repo, items[i]);
      assert Verdicts(index, repo, items[..i + 1]) == Verdicts(index, repo, items[..i]) + [v];
      WorstGrows(Verdicts(index, repo, items[..i]), v, state, reason);
      var next := SetState(state, reason, v);
      state, reason := next.0, next.1;
      updated := updated + [Reanchored(index, repo, items[i])];
    }
    assert items[..|items|] == items;
    WorstIsDeserved(index, repo, items, items, state, reason);
  }

  class ObservationStore {
    var rows: Rows
    var evidence: map<string, seq<EvidenceRow>>
    var index: Index
    const lower: string -> string
    const uuid: nat -> string
    var drawn: nat

    constructor (index: Index, lower: string -> string, uuid: nat -> string)
      requires forall i: nat, j: nat :: uuid(i) == uuid(j) ==> i == j
      ensures Valid() && rows == map[]
    {
      this.index, this.lower, this.uuid := index, lower, uuid;
      rows, evidence, drawn := map[], map[], 0;
    }

    ghost predicate Valid()
      reads this
    {
      && rows.Keys == evidence.Keys
      && UniqueIdentities(rows)
      && (forall id :: id in evidence ==> DistinctIds(evidence[id]))
      && (forall i: nat :: i >= drawn ==> uuid(i) !in rows)
      && (forall i: nat, j: nat :: uuid(i) == uuid(j) ==> i == j)
    }

    /** Write the worst verdict over the evidence, in the order of its listing. */
    method RefreshOne(id: string, now: int)
      requires Valid() && id in rows
      modifies this`rows, this`evidence
      ensures Valid() && rows.Keys == old(rows).Keys
      ensures Truthy(old(rows)[id].supersededBy) ==> rows == old(rows) && evidence == old(evidence)
      ensures !Truthy(old(rows)[id].supersededBy) ==>
        var row, items := old(rows)[id], old(evidence)[id];
        && IsWorst(Verdicts(index, row.repo, Listing(items)), rows[id].freshness, rows[id].staleReason)
        && Deserved(index, row.repo, items, rows[id].freshness)
        && rows[id] == row.(freshness := rows[id].freshness, staleReason := rows[id].staleReason, updatedAt := now,
                            lastVerifiedAt := if rows[id].freshness.Valid? then Some(now) else row.lastVerifiedAt)
        && evidence[id] == Refreshed(index, row.repo, items) && Listing(evidence[id]) == evidence[id]
      ensures forall other :: other in rows && other != id ==> rows[other] == old(rows)[other] && evidence[other] == old(evidence)[other]
    {
      hide IsWorst, Deserved, Judge, Reanchored, UniqueIdentities, StillThere, Listing, DistinctIds;
      var row := rows[id];
      if Truthy(row.supersededBy) {
        return;
      }
      var state, reason, updated := JudgeAll(index, row.repo, Listing(evidence[id]));
      RefreshKeepsListing(index, row.repo, evidence[id]);
      ListingIsOrdered(evidence[id]);
      WorstIsDeserved(index, row.repo, evidence[id], Listing(evidence[id]), state, reason);
      var after := row.(freshness := state, staleReason := reason, updatedAt := now,
                        lastVerifiedAt := if state.Valid? then Some(now) else row.lastVerifiedAt);
      RewriteKeepsUnique(rows, id, after);
      evidence := evidence[id := updated];
      rows := rows[id := after];
    }

    /** `UPDATE ... SET freshness = 'stale', superseded_by = ?`. */
    method MarkSuperseded(owner: string, repo: string, oldId: string, newId: string, now: int) returns (error: Option<WriteError>)
      requires Valid()
      modifies this`rows
      ensures Valid() && StillThere(old(rows), rows)
      ensures error.None? <==> oldId != newId && oldId in old(rows) && old(rows)[oldId].owner == owner && old(rows)[oldId].repo == repo
      ensures error.None? ==> rows == old(rows)[oldId := Superseded(old(rows)[oldId], newId, now)]
      ensures error.None? ==>
        rows[oldId] == old(rows)[oldId].(freshness := Stale, staleReason := Some("superseded"), supersededBy := Some(newId), updatedAt := now)
      ensures error.Some? ==> rows == old(rows)
    {
      if oldId == newId {
        return Some(SupersedesItself);
      }
      if oldId !in rows || rows[oldId].owner != owner || rows[oldId].repo != repo {
        return Some(SupersededNotFound);
      }
      RewriteKeepsUnique(rows, oldId, Superseded(rows[oldId], newId, now));
      rows := rows[oldId := Superseded(rows[oldId], newId, now)];
      return None;
    }

    /** The stored evidence of an observation, with row ids drawn for it. */
    method ReplaceEvidence(id: string, given: seq<Evidence>, repo: string)
      requires id in rows && rows.Keys <= evidence.Keys + {id}
      requires forall i: nat, j: nat :: uuid(i) == uuid(j) ==> i == j
      modifies this`evidence, this`drawn
      ensures evidence.Keys == old(evidence).Keys + {id} && drawn >= old(drawn)
      ensures forall other :: other in old(evidence) && other != id ==> evidence[other] == old(evidence)[other]
      ensures EvidenceStored(evidence[id], index, repo, given) && DistinctIds(evidence[id])
    {
      hide KeepLast, Anchored;
      AnchoredIds(index, repo);
      var kept, ix, ids, first := KeepLast(given), index, uuid, drawn;
      var items := seq(|kept|, i requires 0 <= i < |kept| => Anchored(ix, repo, ids(first + i), kept[i]));
      drawn := drawn + |kept|;
      evidence := evidence[id := items];
    }

    /**
     * One upsert. Without an update id, a known identity is an idempotent retry: the row is returned
     * as it stands. Otherwise a row is written under the identity, which must not be taken.
     */
    method Upsert(owner: string, repo: string, input: ObservationInput, updateId: Option<string>, now: int)
      returns (r: Result<Written>)
      requires Valid()
      modifies this`rows, this`evidence, this`drawn
      ensures Valid() && drawn >= old(drawn)
      ensures var identity := IdentityText(input, lower);
        && (!Truthy(updateId) && Known(old(rows), owner, repo, identity) ==>
              r.Ok? && !r.value.created && rows == old(rows) && evidence == old(evidence)
              && r.value.id in rows && Carries(rows[r.value.id], owner, repo, identity))
        && (r.Ok? ==> Known(rows, owner, repo, identity) && (!Truthy(updateId) ==> StillThere(old(rows), rows)))
        && (r.Ok? && r.value.created ==> !Truthy(updateId) && r.value.id !in old(rows) && !Known(old(rows), owner, repo, identity))
        && (Truthy(updateId) && !(updateId.value in old(rows) && old(rows)[updateId.value].owner == owner && old(rows)[updateId.value].repo == repo) ==>
              r == Err(NotFound))
      ensures r.Ok? && r.value.created ==>
        var verified := AllVerifiable(index, repo, input.evidence);
        var row := RowFrom(owner, repo, input, IdentityText(input, lower), verified, now, None, now);
        rows == Linked(old(rows)[r.value.id := row], input.supersedesId, r.value.id, now)
      ensures r.Ok? && Truthy(updateId) ==>
        var verified, was := AllVerifiable(index, repo, input.evidence), old(rows)[updateId.value];
        var row := RowFrom(owner, repo, input, IdentityText(input, lower), verified, was.createdAt, was.supersededBy, now);
        r.value == Written(updateId.value, false) && rows == Linked(old(rows)[updateId.value := row], input.supersedesId, updateId.value, now)
      ensures r.Ok? && (r.value.created || Truthy(updateId)) ==>
        && r.value.id in evidence && EvidenceStored(evidence[r.value.id], index, repo, input.evidence)
        && forall other :: other in old(evidence) && other != r.value.id ==> evidence[other] == old(evidence)[other]
    {
      hide UniqueIdentities, IdentityText, StillThere, Linked, EvidenceStored, AllVerifiable;
      var identity := IdentityText(input, lower);
      var verified := AllVerifiable(index, repo, input.evidence);
      var holding := Holding(rows, owner, repo, identity);
      HoldingKnown(rows, owner, repo, identity);
      AllStillThere(rows);
      var id;
      if Truthy(updateId) {
        id := updateId.value;
        if id !in rows || rows[id].owner != owner || rows[id].repo != repo {
          return Err(NotFound);
        }
        if holding - {id} != {} {
          return Err(IdentityTaken);
        }
        var row := rows[id];
        NotTaken(rows, owner, repo, identity, id);
        r := Store(id, RowFrom(owner, repo, input, identity, verified, row.createdAt, row.supersededBy, now), input, now, false);
      } else {
        if holding != {} {
          var known :| known in holding;
          return Ok(Written(known, false));
        }
        id := uuid(drawn);
        NotTaken(rows, owner, repo, identity, id);
        drawn := drawn + 1;
        r := Store(id, RowFrom(owner, repo, input, identity, verified, now, None, now), input, now, true);
      }
    }

    /**
     * All inputs in one transaction: an error undoes everything. Without an update id, inputs that
     * were all written before change nothing and create nothing.
     */
    method UpsertMany(owner: string, repo: string, inputs: seq<ObservationInput>, updateId: Option<string>, now: int)
      returns (r: Result<seq<Written>>)
      requires Valid()
      modifies this`rows, this`evidence, this`drawn
      ensures Valid() && drawn >= old(drawn)
      ensures r.Err? ==> rows == old(rows) && evidence == old(evidence)
      ensures r.Ok? ==> |r.value| == |inputs|
      ensures r.Ok? && !Truthy(updateId) ==> StillThere(old(rows), rows) && AllKnown(rows, owner, repo, inputs, lower)
      ensures !Truthy(updateId) && AllKnown(old(rows), owner, repo, inputs, lower) ==>
        r.Ok? && rows == old(rows) && evidence == old(evidence) && forall i :: 0 <= i < |inputs| ==> !r.value[i].created
    {
      hide UniqueIdentities, StillThere, Known, IdentityText;
      var rows0, evidence0 := rows, evidence;
      AllStillThere(rows);
      var written: seq<Written> := [];
      for i := 0 to |inputs|
        invariant Valid() && drawn >= old(drawn) && |written| == i
        invariant !Truthy(updateId) ==> StillThere(rows0, rows) && AllKnown(rows, owner, repo, inputs[..i], lower)
        invariant !Truthy(updateId) && AllKnown(rows0, owner, repo, inputs, lower) ==>
          rows == rows0 && evidence == evidence0 && forall j :: 0 <= j < i ==> !written[j].created
      {
        ghost var before := rows;
        var one := Upsert(owner, repo, inputs[i], updateId, now);
        if one.Err? {
          rows, evidence := rows0, evidence0;
          return Err(one.error);
        }
        if !Truthy(updateId) {
          StillThereThen(rows0, before, rows);
          OneMoreKnown(before, rows, owner, repo, inputs, i, lower);
        }
        written := written + [one.value];
      }
      assert inputs[..|inputs|] == inputs;
      r := Ok(written);
    }

    /** Write the row, its evidence, and the supersedes link. */
    method Store(id: string, row: ObservationRow, input: ObservationInput, now: int, created: bool) returns (r: Result<Written>)
      requires Valid() && created == (id !in rows)
      requires forall i: nat :: i >= drawn ==> uuid(i) != id
      requires forall other :: other in rows && other != id ==> !Carries(rows[other], row.owner, row.repo, row.identity)
      modifies this`rows, this`evidence, this`drawn
      ensures Valid() && drawn >= old(drawn)
      ensures r.Ok? ==> r.value == Written(id, created) && id in rows && Carries(rows[id], row.owner, row.repo, row.identity)
      ensures r.Ok? && created ==> StillThere(old(rows), rows)
      ensures r.Ok? ==> rows == Linked(old(rows)[id := row], input.supersedesId, id, now)
      ensures r.Ok? ==> EvidenceStored(evidence[id], index, row.repo, input.evidence)
      ensures r.Ok? ==> forall other :: other in old(evidence) && other != id ==> evidence[other] == old(evidence)[other]
    {
      hide UniqueIdentities, StillThere, EvidenceStored, Superseded;
      NewIdentityKeepsUnique(rows, id, row);
      InsertedStillThere(rows, id, row);
      rows := rows[id := row];
      ghost var stored := rows;
      ReplaceEvidence(id, input.evidence, row.repo);
      if Truthy(input.supersedesId) {
        var error := MarkSuperseded(row.owner, row.repo, input.supersedesId.value, id, now);
        if error.Some? {
          return Err(error.value);
        }
        StillThereThen(old(rows), stored, rows);
      }
      r := Ok(Written(id, created));
    }
  }

  lemma NotTaken(rows: Rows, owner: string, repo: string, identity: string, id: string)
    requires Holding(rows, owner, repo, identity) <= {id}
    ensures forall other :: other in rows && other != id ==> !Carries(rows[other], owner, repo, identity)
  {
    forall other | other in rows && other != id
      ensures !Carries(rows[other], owner, repo, identity)
    {
      assert other !in Holding(rows, owner, repo, identity);
    }
  }

  ghost predicate AllKnown(rows: Rows, owner: string, repo: string, inputs: seq<ObservationInput>, lower: string -> string) {
    forall i :: 0 <= i < |inputs| ==> Known(rows, owner, repo, IdentityText(inputs[i], lower))
  }

  lemma OneMoreKnown(before: Rows, after: Rows, owner: string, repo: string, inputs: seq<ObservationInput>, i: nat, lower: string -> string)
    requires i < |inputs| && StillThere(before, after) && AllKnown(before, owner, repo, inputs[..i], lower)
    requires Known(after, owner, repo, IdentityText(inputs[i], lower))
    ensures AllKnown(after, owner, repo, inputs[..i + 1], lower)
  {
    hide StillThere, Known, IdentityText;
    forall j | 0 <= j < i
      ensures Known(after, owner, repo, IdentityText(inputs[j], lower))
    {
      assert inputs[..i][j] == inputs[j];
      KnownStays(before, after, owner, repo, IdentityText(inputs[j], lower));
    }
  }

  /** The rows once a new row's supersedes link, if any, is followed. */
  function Linked(rows: Rows, link: Option<string>, id: string, now: int): Rows {
    if Truthy(link) && link.value in rows then rows[link.value := Superseded(rows[link.value], id, now)] else rows
  }

  /** The stored evidence of one observation: one row per identity, anchored to the index. */
  ghost predicate EvidenceStored(items: seq<EvidenceRow>, index: Index, repo: string, given: seq<Evidence>) {
    && |items| == |KeepLast(given)|
    && forall i :: 0 <= i < |items| ==> items[i] == Anchored(index, repo, items[i].id, KeepLast(given)[i])
  }

  lemma InsertedStillThere(rows: Rows, id: string, row: ObservationRow)
    ensures id !in rows ==> StillThere(rows, rows[id := row])
    ensures StillThere(rows[id := row], rows[id := row])
  {
  }

  lemma StillThereThen(a: Rows, b: Rows, c: Rows)
    requires StillThere(b, c)
    ensures StillThere(a, b) ==> StillThere(a, c)
    ensures forall id :: id in b ==> id in c && Carries(c[id], b[id].owner, b[id].repo, b[id].identity)
  {
  }

  lemma AnchoredIds(index: Index, repo: string)
    ensures forall id, e :: Anchored(index, repo, id, e).id == id
  {
  }

  lemma AllStillThere(rows: Rows)
    ensures StillThere(rows, rows)
  {
  }

  lemma HoldingKnown(rows: Rows, owner: string, repo: string, identity: string)
    ensures Holding(rows, owner, repo, identity) != {} <==> Known(rows, owner, repo, identity)
    ensures forall id :: id in Holding(rows, owner, repo, identity) ==> id in rows && Carries(rows[id], owner, repo, identity)
  {
    if Known(rows, owner, repo, identity) {
      var id :| id in rows && Carries(rows[id], owner, repo, identity);
      assert id in Holding(rows, owner, repo, identity);
    }
  }
}
