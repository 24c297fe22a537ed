/**
 * When two exploration observations count as the same: the text hashed into `identity_hash`.
 * Lower-casing is a parameter; sha256 is taken to be collision free, so the text stands for the hash.
 */
module ObservationIdentity {
  import opened Options
  import opened Strings

  const UNIT := '\U{1F}'
  const RECORD := '\U{1E}'

  datatype Evidence = Evidence(filePath: string, symbolId: Option<string>, startLine: Option<nat>, endLine: Option<nat>,
                               commitSha: Option<string>)

  datatype ObservationInput = ObservationInput(subject: string, fact: string, confidence: real, evidence: seq<Evidence>,
                                               taskId: Option<string>, agent: Option<string>, supersedesId: Option<string>)

  // --- normalisation ---

  predicate IsSpace(c: char) {
    || c in " \t\n\r" || c == '\U{B}' || c == '\U{C}' || c == '\U{A0}' || c == '\U{1680}'
    || '\U{2000}' <= c <= '\U{200A}' || c == '\U{2028}' || c == '\U{2029}' || c == '\U{202F}'
    || c == '\U{205F}' || c == '\U{3000}' || c == '\U{FEFF}'
  }

  function TrimStart(s: string): string {
    if s != [] && IsSpace(s[0]) then TrimStart(s[1..]) else s
  }

  function TrimEnd(s: string): string {
    if s != [] && IsSpace(s[|s| - 1]) then TrimEnd(s[..|s| - 1]) else s
  }

  function Trim(s: string): string {
    TrimEnd(TrimStart(s))
  }

  /** Every run of white space becomes one blank. */
  function Collapse(s: string): string {
    if s == [] then []
    else if !IsSpace(s[0]) then [s[0]] + Collapse(s[1..])
    else if |s| > 1 && IsSpace(s[1]) then Collapse(s[1..])
    else " " + Collapse(s[1..])
  }

  function NormalText(s: string, lower: string -> string): string {
    lower(Collapse(Trim(s)))
  }

  /** The maximal runs of characters that are no white space. */
  function Words(s: string): seq<string> {
    if s == [] then []
    else
      var rest := Words(s[1..]);
      if IsSpace(s[0]) then rest
      else if |s| > 1 && !IsSpace(s[1]) && rest != [] then [[s[0]] + rest[0]] + rest[1..]
      else [[s[0]]] + rest
  }

  /** The words with one blank between them. */
  function Spaced(words: seq<string>): string {
    if words == [] then "" else Join(words, ' ')
  }

  lemma WordsThere(s: string)
    requires s != [] && !IsSpace(s[0])
    ensures Words(s) != [] && Words(s)[0] != [] && Words(s)[0][0] == s[0]
  {
  }

  /** What trimming leaves behind has no trailing space, so its last character starts or continues a word. */
  lemma {:induction false} LastWord(s: string)
    requires s != [] && !IsSpace(s[|s| - 1])
    ensures Words(s) != []
    decreases |s|
  {
    if |s| > 1 {
      LastWord(s[1..]);
    }
  }

  lemma SpacedLonger(c: char, words: seq<string>)
    requires words != []
    ensures Spaced([[c] + words[0]] + words[1..]) == [c] + Spaced(words)
    ensures Spaced([[c]] + words) == [c] + " " + Spaced(words)
    ensures Spaced([[c]]) == [c]
  {
    assert ([[c] + words[0]] + words[1..])[1..] == words[1..] && ([[c]] + words)[1..] == words;
  }

  lemma {:induction false} CollapseIsSpaced(s: string)
    requires s != [] ==> !IsSpace(s[|s| - 1])
    ensures Collapse(s) == (if s != [] && IsSpace(s[0]) then " " else "") + Spaced(Words(s))
    decreases |s|
  {
    if s != [] {
      var rest, words := s[1..], Words(s[1..]);
      CollapseIsSpaced(rest);
      if |s| > 1 {
        LastWord(rest);
        SpacedLonger(s[0], words);
      } else {
        assert rest == [];
      }
      hide Spaced, IsSpace;
    }
  }

  lemma {:induction false} TrimStartWords(s: string)
    ensures Words(TrimStart(s)) == Words(s) && (TrimStart(s) != [] ==> !IsSpace(TrimStart(s)[0]))
    decreases |s|
  {
    if s != [] && IsSpace(s[0]) {
      TrimStartWords(s[1..]);
    }
  }

  lemma {:induction false} NoWordAdded(s: string, c: char)
    requires IsSpace(c)
    ensures Words(s + [c]) == Words(s)
    decreases |s|
  {
    if s != [] {
      assert (s + [c])[1..] == s[1..] + [c];
      NoWordAdded(s[1..], c);
    } else {
      assert (s + [c])[1..] == [];
    }
  }

  lemma {:induction false} TrimEndWords(s: string)
    ensures Words(TrimEnd(s)) == Words(s) && TrimEnd(s) <= s
    ensures TrimEnd(s) != [] ==> !IsSpace(TrimEnd(s)[|TrimEnd(s)| - 1])
    decreases |s|
  {
    if s != [] && IsSpace(s[|s| - 1]) {
      var shorter := s[..|s| - 1];
      assert s == shorter + [s[|s| - 1]];
      TrimEndWords(shorter);
      NoWordAdded(shorter, s[|s| - 1]);
    }
  }

  /** The normal form of a text is its words with one blank between them, lowered: white space does not matter otherwise. */
  lemma NormalTextIsWords(s: string, lower: string -> string)
    ensures NormalText(s, lower) == lower(Spaced(Words(s)))
  {
    var front := TrimStart(s);
    TrimStartWords(s);
    TrimEndWords(front);
    var inner := TrimEnd(front);
    CollapseIsSpaced(inner);
    assert inner != [] ==> inner[0] == front[0];
    assert Collapse(Trim(s)) == Spaced(Words(s));
  }

  /** Trimming takes white space off both ends and nothing else. */
  lemma {:induction false} TrimIsInner(s: string) returns (before: string, after: string)
    ensures s == before + Trim(s) + after
    ensures (forall i :: 0 <= i < |before| ==> IsSpace(before[i])) && (forall i :: 0 <= i < |after| ==> IsSpace(after[i]))
    ensures Trim(s) != [] ==> !IsSpace(Trim(s)[0]) && !IsSpace(Trim(s)[|Trim(s)| - 1])
    decreases |s|
  {
    hide IsSpace, TrimEnd;
    if s != [] && IsSpace(s[0]) {
      before, after := TrimIsInner(s[1..]);
      before := [s[0]] + before;
      assert s == [s[0]] + s[1..];
    } else {
      before := [];
      after := TrimmedOff(s);
      assert Trim(s) == TrimEnd(s);
    }
  }

  lemma {:induction false} TrimmedOff(s: string) returns (after: string)
    ensures s == TrimEnd(s) + after && forall i :: 0 <= i < |after| ==> IsSpace(after[i])
    ensures TrimEnd(s) != [] ==> !IsSpace(TrimEnd(s)[|TrimEnd(s)| - 1])
    decreases |s|
  {
    after := [];
    if s != [] && IsSpace(s[|s| - 1]) {
      after := TrimmedOff(s[..|s| - 1]);
      after := after + [s[|s| - 1]];
    }
  }

  // --- evidence ---

  function TextOrEmpty(o: Option<string>): string {
    if o.Some? then Trim(o.value) else ""
  }

  function LineText(o: Option<nat>): string {
    if o.Some? then Decimal(o.value) else ""
  }

  function EvidenceParts(e: Evidence): seq<string> {
    [Trim(e.filePath), TextOrEmpty(e.symbolId), LineText(e.startLine), LineText(e.endLine)]
  }

  function EvidenceIdentity(e: Evidence): string {
    Join(EvidenceParts(e), UNIT)
  }

  /** What an evidence points at: the trimmed path and symbol (no symbol is an empty one) and the lines. */
  datatype Place = Place(path: string, symbol: string, startLine: Option<nat>, endLine: Option<nat>)

  function PlaceOf(e: Evidence): Place {
    Place(Trim(e.filePath), TextOrEmpty(e.symbolId), e.startLine, e.endLine)
  }

  /** A missing symbol counts as an empty one, and white space around it does not count. */
  lemma SymbolPlace(e: Evidence)
    ensures PlaceOf(e).symbol == if e.symbolId.None? then "" else Trim(e.symbolId.value)
    ensures PlaceOf(e).path == Trim(e.filePath) && PlaceOf(e).startLine == e.startLine && PlaceOf(e).endLine == e.endLine
  {
  }

  /** Neither separator occurs in the path or the symbol. */
  predicate PlainEvidence(e: Evidence) {
    && Free(Trim(e.filePath), UNIT) && Free(Trim(e.filePath), RECORD)
    && Free(TextOrEmpty(e.symbolId), UNIT) && Free(TextOrEmpty(e.symbolId), RECORD)
  }

  lemma LineTextPlain(o: Option<nat>, sep: char)
    requires !IsDigit(sep)
    ensures Free(LineText(o), sep)
    ensures LineText(o) == "" <==> o.None?
  {
    if o.Some? {
      DecimalDigits(o.value);
    }
  }

  lemma LineTextInjective(a: Option<nat>, b: Option<nat>)
    requires LineText(a) == LineText(b)
    ensures a == b
  {
    LineTextPlain(a, UNIT);
    LineTextPlain(b, UNIT);
    if a.Some? && b.Some? {
      DecimalInjective(a.value, b.value);
    }
  }

  lemma EvidencePlain(e: Evidence)
    requires PlainEvidence(e)
    ensures AllFree(EvidenceParts(e), UNIT) && Free(EvidenceIdentity(e), RECORD)
  {
    LineTextPlain(e.startLine, UNIT);
    LineTextPlain(e.endLine, UNIT);
    LineTextPlain(e.startLine, RECORD);
    LineTextPlain(e.endLine, RECORD);
    JoinFree(EvidenceParts(e), UNIT, RECORD);
  }

  lemma EvidenceIdentityIff(e: Evidence, f: Evidence)
    requires PlainEvidence(e) && PlainEvidence(f)
    ensures EvidenceIdentity(e) == EvidenceIdentity(f) <==> PlaceOf(e) == PlaceOf(f)
  {
    if EvidenceIdentity(e) == EvidenceIdentity(f) {
      EvidencePlain(e);
      EvidencePlain(f);
      JoinInjective(EvidenceParts(e), EvidenceParts(f), UNIT);
      var p, q := EvidenceParts(e), EvidenceParts(f);
      assert p[0] == q[0] && p[1] == q[1] && p[2] == q[2] && p[3] == q[3];
      LineTextInjective(e.startLine, f.startLine);
      LineTextInjective(e.endLine, f.endLine);
    }
  }

  // --- observations ---

  function EvidenceIdentities(evidence: seq<Evidence>): (r: seq<string>)
    ensures |r| == |evidence|
  {
    seq(|evidence|, i requires 0 <= i < |evidence| => EvidenceIdentity(evidence[i]))
  }

  function IdentityParts(input: ObservationInput, lower: string -> string): seq<string> {
    [NormalText(input.subject, lower), NormalText(input.fact, lower)] + SortedSet(EvidenceIdentities(input.evidence))
  }

  function IdentityText(input: ObservationInput, lower: string -> string): string {
    Join(IdentityParts(input, lower), RECORD)
  }

  function Places(evidence: seq<Evidence>): set<Place> {
    set i | 0 <= i < |evidence| :: PlaceOf(evidence[i])
  }

  predicate Plain(input: ObservationInput, lower: string -> string) {
    && Free(NormalText(input.subject, lower), RECORD) && Free(NormalText(input.fact, lower), RECORD)
    && forall i :: 0 <= i < |input.evidence| ==> PlainEvidence(input.evidence[i])
  }

  /** On any input, reordering or repeating evidence does not change the identity. */
  lemma IdentityIgnoresOrder(a: ObservationInput, b: ObservationInput, lower: string -> string)
    requires NormalText(a.subject, lower) == NormalText(b.subject, lower)
    requires NormalText(a.fact, lower) == NormalText(b.fact, lower)
    requires forall e :: e in a.evidence <==> e in b.evidence
    ensures IdentityText(a, lower) == IdentityText(b, lower)
  {
    SameMembers(a.evidence, b.evidence);
    SameMembers(b.evidence, a.evidence);
    SortedSetOfSet(EvidenceIdentities(a.evidence), EvidenceIdentities(b.evidence));
  }

  lemma SameMembers(a: seq<Evidence>, b: seq<Evidence>)
    requires forall e :: e in a ==> e in b
    ensures forall y :: y in EvidenceIdentities(a) ==> y in EvidenceIdentities(b)
  {
    forall y | y in EvidenceIdentities(a)
      ensures y in EvidenceIdentities(b)
    {
      var i :| 0 <= i < |a| && EvidenceIdentities(a)[i] == y;
      assert a[i] in b;
      var j :| 0 <= j < |b| && b[j] == a[i];
      assert EvidenceIdentities(b)[j] == y;
    }
  }

  lemma PlainParts(input: ObservationInput, lower: string -> string)
    requires Plain(input, lower)
    ensures AllFree(IdentityParts(input, lower), RECORD)
  {
    var ids := EvidenceIdentities(input.evidence);
    SortedSetSorts(ids);
    forall y | y in SortedSet(ids)
      ensures Free(y, RECORD)
    {
      assert y in ids;
      var i :| 0 <= i < |ids| && ids[i] == y;
      EvidencePlain(input.evidence[i]);
    }
    var parts := IdentityParts(input, lower);
    forall i | 0 <= i < |parts|
      ensures Free(parts[i], RECORD)
    {
      if i >= 2 {
        assert parts[i] == SortedSet(ids)[i - 2];
        assert SortedSet(ids)[i - 2] in SortedSet(ids);
      }
    }
  }

  lemma IdentitiesFollowPlaces(a: seq<Evidence>, b: seq<Evidence>)
    requires forall i :: 0 <= i < |a| ==> PlainEvidence(a[i])
    requires forall i :: 0 <= i < |b| ==> PlainEvidence(b[i])
    ensures (forall y :: y in EvidenceIdentities(a) ==> y in EvidenceIdentities(b)) <==> Places(a) <= Places(b)
  {
    var ia, ib := EvidenceIdentities(a), EvidenceIdentities(b);
    if forall y :: y in ia ==> y in ib {
      forall p | p in Places(a)
        ensures p in Places(b)
      {
        var i :| 0 <= i < |a| && PlaceOf(a[i]) == p;
        assert ia[i] in ib;
        var j :| 0 <= j < |b| && ib[j] == ia[i];
        EvidenceIdentityIff(a[i], b[j]);
      }
    }
    if Places(a) <= Places(b) {
      forall y | y in ia
        ensures y in ib
      {
        var i :| 0 <= i < |a| && ia[i] == y;
        assert PlaceOf(a[i]) in Places(b);
        var j :| 0 <= j < |b| && PlaceOf(b[j]) == PlaceOf(a[i]);
        EvidenceIdentityIff(a[i], b[j]);
        assert ib[j] == y;
      }
    }
  }

  /**
   * On any input: two observations share an identity exactly when their fields, the distinct
   * evidence texts in order among them, cut at the record separator, give the same pieces.
   */
  lemma IdentityPiecesIff(a: ObservationInput, b: ObservationInput, lower: string -> string)
    ensures IdentityText(a, lower) == IdentityText(b, lower) <==>
            Pieces(IdentityParts(a, lower), RECORD) == Pieces(IdentityParts(b, lower), RECORD)
  {
    JoinEqualIff(IdentityParts(a, lower), IdentityParts(b, lower), RECORD);
  }

  /** The same for one evidence and the unit separator. */
  lemma EvidencePiecesIff(e: Evidence, f: Evidence)
    ensures EvidenceIdentity(e) == EvidenceIdentity(f) <==> Pieces(EvidenceParts(e), UNIT) == Pieces(EvidenceParts(f), UNIT)
  {
    JoinEqualIff(EvidenceParts(e), EvidenceParts(f), UNIT);
  }

  /**
   * For separator-free fields the identity is canonical: equal exactly for equal normalised texts
   * and the same set of places.
   */
  lemma IdentityIff(a: ObservationInput, b: ObservationInput, lower: string -> string)
    requires Plain(a, lower) && Plain(b, lower)
    ensures IdentityText(a, lower) == IdentityText(b, lower) <==>
            && NormalText(a.subject, lower) == NormalText(b.subject, lower)
            && NormalText(a.fact, lower) == NormalText(b.fact, lower)
            && Places(a.evidence) == Places(b.evidence)
  {
    hide NormalText, PlaceOf, EvidenceIdentity, SortedSet, PlainEvidence;
    var ia, ib := EvidenceIdentities(a.evidence), EvidenceIdentities(b.evidence);
    SortedSetOfSet(ia, ib);
    IdentitiesFollowPlaces(a.evidence, b.evidence);
    IdentitiesFollowPlaces(b.evidence, a.evidence);
    if IdentityText(a, lower) == IdentityText(b, lower) {
      PlainParts(a, lower);
      PlainParts(b, lower);
      var p, q := IdentityParts(a, lower), IdentityParts(b, lower);
      IdentityPiecesIff(a, b, lower);
      FreePieces(p, RECORD);
      FreePieces(q, RECORD);
      assert p[0] == q[0] && p[1] == q[1];
      assert p[2..] == SortedSet(ia) && q[2..] == SortedSet(ib);
    }
  }

  /** Lower-casing of text that is lower case already. */
  function AsIs(s: string): string {
    s
  }

  /**
   * Any normalised subject that holds the record separator collides with the observation it splits
   * into: the part before the separator as the subject, the rest before the fact.
   */
  lemma SeparatorCollides(a: ObservationInput, b: ObservationInput, lower: string -> string, before: string, rest: string)
    requires NormalText(a.subject, lower) == before + [RECORD] + rest
    requires NormalText(b.subject, lower) == before
    requires NormalText(b.fact, lower) == rest + [RECORD] + NormalText(a.fact, lower)
    requires forall e :: e in a.evidence <==> e in b.evidence
    ensures IdentityText(a, lower) == IdentityText(b, lower)
    ensures NormalText(a.subject, lower) != NormalText(b.subject, lower)
  {
    SameMembers(a.evidence, b.evidence);
    SameMembers(b.evidence, a.evidence);
    var ia, ib := EvidenceIdentities(a.evidence), EvidenceIdentities(b.evidence);
    SortedSetOfSet(ia, ib);
    JoinSplits(before, rest, NormalText(a.fact, lower), SortedSet(ia));
    assert IdentityParts(a, lower) == [before + [RECORD] + rest, NormalText(a.fact, lower)] + SortedSet(ia);
    assert IdentityParts(b, lower) == [before, rest + [RECORD] + NormalText(a.fact, lower)] + SortedSet(ia);
  }

  lemma JoinSplits(before: string, rest: string, fact: string, more: seq<string>)
    ensures Join([before + [RECORD] + rest, fact] + more, RECORD) == Join([before, rest + [RECORD] + fact] + more, RECORD)
  {
    var x, y := [before + [RECORD] + rest, fact] + more, [before, rest + [RECORD] + fact] + more;
    assert x[1..] == [fact] + more && y[1..] == [rest + [RECORD] + fact] + more;
    if more == [] {
      assert [fact] + more == [fact] && [rest + [RECORD] + fact] + more == [rest + [RECORD] + fact];
    } else {
      assert ([fact] + more)[1..] == more && ([rest + [RECORD] + fact] + more)[1..] == more;
      assert Join([fact] + more, RECORD) == fact + [RECORD] + Join(more, RECORD);
      assert Join([rest + [RECORD] + fact] + more, RECORD) == rest + [RECORD] + fact + [RECORD] + Join(more, RECORD);
    }
  }

  /** Such observations exist: the family is not empty. */
  lemma SeparatorConfuses() returns (a: ObservationInput, b: ObservationInput)
    ensures IdentityText(a, AsIs) == IdentityText(b, AsIs)
    ensures NormalText(a.subject, AsIs) != NormalText(b.subject, AsIs)
  {
    a := ObservationInput("a" + [RECORD] + "b", "c", 1.0, [], None, None, None);
    b := ObservationInput("a", "b" + [RECORD] + "c", 1.0, [], None, None, None);
    PlainWord("a" + [RECORD] + "b");
    PlainWord("b" + [RECORD] + "c");
    PlainWord("a");
    PlainWord("c");
    SeparatorCollides(a, b, AsIs, "a", "b");
  }

  lemma {:induction false} PlainWord(s: string)
    requires s != [] && forall i :: 0 <= i < |s| ==> !IsSpace(s[i])
    ensures NormalText(s, AsIs) == s
    decreases |s|
  {
    NoSpaces(s);
  }

  lemma {:induction false} NoSpaces(s: string)
    requires forall i :: 0 <= i < |s| ==> !IsSpace(s[i])
    ensures Collapse(s) == s
    decreases |s|
  {
    if s != [] {
      NoSpaces(s[1..]);
      assert s == [s[0]] + s[1..];
    }
  }
}
