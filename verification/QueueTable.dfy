/**
 * The `queue_jobs` table and the row-level effect of every SQL statement run on it.
 *
 * The table is keyed by its unique index (entity_kind, entity_id). A statement `UPDATE ... WHERE`
 * is a function of each row taken alone, so it is given here as a guard and a new row.
 * Timestamps are integers; sha256 is taken to be collision free, so a digest is the canonical
 * record it is computed from.
 */
module QueueTable {
  import opened Options

  datatype Kind = Memory | Standard | Task | CodebaseSymbol

  datatype Key = Key(kind: Kind, entityId: string)

  /** The enqueue-time snapshot of an entity. */
  datatype Payload = Payload(
    text: string,
    content: Option<string>,
    title: Option<string>,
    parentId: Option<string>,
    decisionRefs: Option<seq<string>>,
    context: Option<string>,
    stack: Option<seq<string>>,
    codebaseRefDigest: Option<string>,
    owner: string,
    repo: string,
    updatedAt: int)

  /** The digest of the fields the worker consumes: owner, repo and updatedAt are left out. */
  datatype Hash = Digest(
    text: string,
    content: Option<string>,
    title: Option<string>,
    parentId: Option<string>,
    decisionRefs: Option<seq<string>>,
    context: Option<string>,
    stack: Option<seq<string>>,
    codebaseRefDigest: Option<string>)

  function ContentHash(p: Payload): Hash {
    Digest(p.text, p.content, p.title, p.parentId, p.decisionRefs, p.context, p.stack, p.codebaseRefDigest)
  }

  /** A batch token: the text `pid-counter-millis` written into `locked_by`. */
  datatype Token = Token(pid: nat, counter: nat, at: int)

  datatype Status = Pending | Claimed | Done | Poison

  datatype Row = Row(
    id: string,
    entityRepo: string,
    payload: Payload,
    contentHash: Option<Hash>,
    status: Status,
    attempts: nat,
    leaseUntil: Option<int>,
    lockedBy: Option<Token>,
    backoffUntil: Option<int>,
    lastError: Option<string>,
    createdAt: int,
    updatedAt: int)

  type Table = map<Key, Row>

  datatype JobInput = JobInput(key: Key, repo: string, payload: Payload)

  predicate Live(row: Row) {
    row.status.Pending? || row.status.Claimed?
  }

  predicate Owned(row: Row, id: string, tok: Token) {
    row.id == id && row.status.Claimed? && row.lockedBy == Some(tok)
  }

  // --- INSERT ... ON CONFLICT(entity_kind, entity_id) DO UPDATE ---

  function FreshRow(input: JobInput, id: string, now: int): Row {
    Row(id, input.repo, input.payload, Some(ContentHash(input.payload)), Pending, 0, None, None, None, None, now, now)
  }

  /** The reset applied on conflict: the id, the repo and the creation time of the old row stay. */
  function ResetRow(row: Row, input: JobInput, now: int): Row {
    row.(payload := input.payload, contentHash := Some(ContentHash(input.payload)), status := Pending, attempts := 0,
         leaseUntil := None, lockedBy := None, backoffUntil := None, lastError := None, updatedAt := now)
  }

  function Upsert(t: Table, input: JobInput, id: string, now: int): Table {
    if input.key in t then t[input.key := ResetRow(t[input.key], input, now)]
    else t[input.key := FreshRow(input, id, now)]
  }

  /** The SELECT before a write-path enqueue finds the same content under way or finished. */
  predicate Dedups(t: Table, input: JobInput) {
    && input.key in t
    && t[input.key].contentHash == Some(ContentHash(input.payload))
    && !t[input.key].status.Poison?
  }

  function EnqueueJob(t: Table, input: JobInput, id: string, now: int): Table {
    if Dedups(t, input) then t else Upsert(t, input, id, now)
  }

  /** The backfill upsert carries `WHERE status = 'done'`: any other existing row is left alone. */
  predicate BackfillApplies(t: Table, key: Key) {
    key in t ==> t[key].status.Done?
  }

  function EnqueueIfAbsent(t: Table, input: JobInput, id: string, now: int): Table {
    if BackfillApplies(t, input.key) then Upsert(t, input, id, now) else t
  }

  // --- the claim ---

  predicate Eligible(row: Row, now: int) {
    || (row.status.Pending? && (row.backoffUntil.None? || row.backoffUntil.value <= now))
    || (row.status.Claimed? && row.leaseUntil.Some? && row.leaseUntil.value < now)
  }

  /**
   * `chosen` is a possible outcome of the inner SELECT: the `max` oldest eligible rows, in either
   * order where creation times are equal.
   */
  ghost predicate IsClaimBatch(t: Table, now: int, max: nat, chosen: set<Key>) {
    && (forall k :: k in chosen ==> k in t && Eligible(t[k], now))
    && |chosen| <= max
    && (|chosen| < max ==> forall k :: k in t && Eligible(t[k], now) ==> k in chosen)
    && (forall k, l :: k in chosen && l in t && l !in chosen && Eligible(t[l], now) ==>
          t[k].createdAt <= t[l].createdAt)
  }

  function ClaimRow(row: Row, tok: Token, now: int, lease: int): Row {
    row.(status := Claimed, leaseUntil := Some(now + lease), lockedBy := Some(tok), updatedAt := now)
  }

  function ClaimRows(t: Table, chosen: set<Key>, tok: Token, now: int, lease: int): (r: Table)
    ensures r.Keys == t.Keys
  {
    map k | k in t :: if k in chosen then ClaimRow(t[k], tok, now, lease) else t[k]
  }

  /** `SELECT * ... WHERE locked_by = ?`, the statement that reads a batch back. */
  function ReadBack(t: Table, tok: Token): Table {
    map k | k in t && t[k].lockedBy == Some(tok) :: t[k]
  }

  // --- UPDATE ... WHERE ---

  datatype Update =
    | Complete(id: string, tok: Token)
    | Release(id: string, tok: Token)
    | Fail(id: string, tok: Token, poison: bool, backoff: Option<int>, error: string)
    | Reconcile
    | Retry(id: string, repo: string)
    | RetryAll(repo: string)

  /** An absent or empty repo scope is no scope. */
  predicate InScope(row: Row, repo: string) {
    repo == "" || row.entityRepo == repo
  }

  predicate Matches(u: Update, row: Row, now: int) {
    match u
    case Complete(id, tok) => Owned(row, id, tok)
    case Release(id, tok) => Owned(row, id, tok)
    case Fail(id, tok, _, _, _) => Owned(row, id, tok)
    case Reconcile => row.status.Claimed? && row.leaseUntil.Some? && row.leaseUntil.value < now
    case Retry(id, repo) => row.id == id && (row.status.Poison? || row.status.Done?) && InScope(row, repo)
    case RetryAll(repo) => row.status.Poison? && InScope(row, repo)
  }

  function Written(u: Update, row: Row, now: int): Row {
    match u
    case Complete(_, _) => row.(status := Done, updatedAt := now, lastError := None)
    case Release(_, _) => row.(status := Pending, leaseUntil := None, lockedBy := None, updatedAt := now)
    case Fail(_, _, poison, backoff, error) =>
      row.(attempts := row.attempts + 1, status := if poison then Poison else Pending, lastError := Some(error),
           leaseUntil := None, lockedBy := None, backoffUntil := backoff, updatedAt := now)
    case Reconcile => row.(status := Pending, leaseUntil := None, lockedBy := None, updatedAt := now)
    case Retry(_, _) => RetriedRow(row, now)
    case RetryAll(_) => RetriedRow(row, now)
  }

  function RetriedRow(row: Row, now: int): Row {
    row.(status := Pending, attempts := 0, leaseUntil := None, lockedBy := None, backoffUntil := None,
         lastError := None, updatedAt := now)
  }

  function RowAfter(u: Update, row: Row, now: int): Row {
    if Matches(u, row, now) then Written(u, row, now) else row
  }

  function UpdateRows(t: Table, u: Update, now: int): (r: Table)
    ensures r.Keys == t.Keys
  {
    map k | k in t :: RowAfter(u, t[k], now)
  }

  function Matched(t: Table, u: Update, now: int): set<Key> {
    set k | k in t && Matches(u, t[k], now)
  }

  // --- DELETE ... WHERE ---

  datatype Removal =
    | DeleteJob(id: string, repo: string)
    | PurgeDone(before: int)
    | PurgePoison(before: int)

  predicate Removes(r: Removal, row: Row) {
    match r
    case DeleteJob(id, repo) => row.id == id && (row.status.Poison? || row.status.Done?) && InScope(row, repo)
    case PurgeDone(before) => row.status.Done? && row.updatedAt < before
    case PurgePoison(before) => row.status.Poison? && row.updatedAt < before
  }

  function RemoveRows(t: Table, r: Removal): (left: Table)
    ensures left.Keys <= t.Keys
  {
    map k | k in t && !Removes(r, t[k]) :: t[k]
  }

  function Removed(t: Table, r: Removal): set<Key> {
    set k | k in t && Removes(r, t[k])
  }

  /** `DELETE FROM queue_jobs WHERE entity_kind = ? AND entity_id IN (...)`: whatever the status. */
  function WithoutEntities(t: Table, keys: set<Key>): (left: Table)
    ensures left.Keys == t.Keys - keys
  {
    map k | k in t && k !in keys :: t[k]
  }

  // --- the failure ticket: the SELECT and the arithmetic before fail()'s UPDATE ---

  function Pow2(n: nat): nat {
    if n == 0 then 1 else 2 * Pow2(n - 1)
  }

  function Min(a: int, b: int): int {
    if a <= b then a else b
  }

  function FailUpdate(id: string, tok: Token, attempts: nat, error: string, threshold: nat,
                      base: int, cap: int, now: int): Update {
    var next := attempts + 1;
    var poison := next >= threshold;
    Fail(id, tok, poison, if poison then None else Some(now + Min(base * Pow2(next - 1), cap)),
         if |error| <= 500 then error else error[..500])
  }

  /** Which rows of the result carry a token after a claim: the read-back is exact only for a fresh token. */
  lemma ReadBackExact(t: Table, chosen: set<Key>, tok: Token, now: int, lease: int)
    requires chosen <= t.Keys
    ensures ReadBack(ClaimRows(t, chosen, tok, now, lease), tok).Keys == chosen
       <==> forall k :: k in t && t[k].lockedBy == Some(tok) ==> k in chosen
  {
    var after := ClaimRows(t, chosen, tok, now, lease);
    var back := ReadBack(after, tok).Keys;
    if back == chosen {
      forall k | k in t && t[k].lockedBy == Some(tok)
        ensures k in chosen
      {
        assert after[k].lockedBy == Some(tok);
        assert k in back;
      }
    }
    assert chosen <= back;
  }

  /**
   * After an enqueue of `before`, another payload for the entity is skipped exactly when the two
   * differ at most in owner, repo and `updatedAt`, and the row has not turned poison.
   */
  lemma DedupIffSameContent(t: Table, input: JobInput, before: Payload)
    requires input.key in t && t[input.key].contentHash == Some(ContentHash(before))
    ensures Dedups(t, input) <==>
            && !t[input.key].status.Poison?
            && input.payload == before.(owner := input.payload.owner, repo := input.payload.repo, updatedAt := input.payload.updatedAt)
  {
  }

  /** How long a failed job waits before it may be claimed again. */
  function Wait(attempts: nat, base: int, cap: int): int {
    Min(base * Pow2(attempts), cap)
  }

  lemma {:induction false} Pow2Positive(n: nat)
    ensures Pow2(n) >= 1
    decreases n
  {
    if n > 0 {
      Pow2Positive(n - 1);
    }
  }

  /** The wait starts at the base, doubles with each failure, and stops at the cap. */
  lemma WaitDoublesUpToCap(attempts: nat, base: int, cap: int)
    requires base > 0
    ensures Wait(0, base, cap) == Min(base, cap)
    ensures Wait(attempts + 1, base, cap) == Min(2 * (base * Pow2(attempts)), cap)
    ensures Wait(attempts, base, cap) <= Wait(attempts + 1, base, cap) <= cap
  {
    Pow2Positive(attempts);
    assert base * Pow2(attempts + 1) == 2 * (base * Pow2(attempts));
  }

  /** A job failed below the threshold is not eligible again before its wait is over, and is from then on. */
  lemma FailedJobWaits(row: Row, tok: Token, error: string, threshold: nat, base: int, cap: int, failedAt: int, now: int)
    requires Owned(row, row.id, tok) && row.attempts + 1 < threshold
    ensures var u := FailUpdate(row.id, tok, row.attempts, error, threshold, base, cap, failedAt);
            Eligible(RowAfter(u, row, failedAt), now) <==> now >= failedAt + Wait(row.attempts, base, cap)
  {
  }

  /** A claimed row is open to a re-claim or a reconcile exactly once its lease is over. */
  lemma LeaseProtects(row: Row, tok: Token, claimedAt: int, lease: int, now: int)
    ensures Eligible(ClaimRow(row, tok, claimedAt, lease), now) <==> claimedAt + lease < now
    ensures Matches(Reconcile, ClaimRow(row, tok, claimedAt, lease), now) <==> claimedAt + lease < now
  {
  }
}
