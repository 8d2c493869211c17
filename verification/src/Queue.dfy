/**
 Pull queues (rust/src/queue_public.rs over rust/migrations/0014_queue_runtime.sql): one
 subscription's deliveries and its attempt log. Each operation is one transaction; every SQL
 statement in it takes one clock reading. A receipt stands for its SHA-256 digest.
 */
module Queues {
  import opened Protocol
  import Sets

  datatype Status = Available | InFlight | Acked | DeadLetter

  /** The lease columns, null together: digest, start, end, and the end no extension may pass. */
  datatype Lease = Lease(receipt: string, startedAt: Time, until: Time, cap: Time)

  datatype Row = Row(generation: int, status: Status, attempts: int, availableAt: Time, priority: int, createdAt: Time,
                     expiresAt: Time, lease: Option<Lease>, reason: Option<string>)

  datatype Outcome = LeasedOut | Closed(status: Status)

  datatype Entry = Entry(delivery: Uuid, generation: int, attempt: int, outcome: Outcome)

  /** The rows of one subscription and their attempt log, unique per (delivery, generation, attempt, outcome). */
  datatype Queue = Queue(clock: Time, rows: map<Uuid, Row>, log: set<Entry>)

  datatype Policy = Policy(enabled: bool, paused: bool, draining: bool, maxInFlight: int, maxBatch: int,
                           maxAttempts: int, maxVisibility: int, maxTotalLease: int)

  datatype Answer<+T> = Answer(queue: Queue, result: Result<T, DeliveryError>)

  /** Clock readings that follow one another from `start` on. */
  ghost predicate Rising(start: Time, times: seq<Time>) {
    && (forall i | 0 <= i < |times| :: start <= times[i])
    && (forall i, j | 0 <= i < j < |times| :: times[i] <= times[j])
  }

  // ---- pull --------------------------------------------------------------------------

  /** A lease that ran out is taken back; the last permitted attempt is dead-lettered. */
  function Reaped(row: Row, maxAttempts: int, now: Time): Row {
    if row.status == InFlight && row.lease.Some? && row.lease.value.until <= now then
      if row.attempts >= maxAttempts
      then row.(status := DeadLetter, lease := None, reason := Some("max_attempts_exhausted"))
      else row.(status := Available, lease := None, reason := Some("visibility_timeout"))
    else row
  }

  function Retired(row: Row, now: Time): Row {
    if row.status == Available && row.expiresAt <= now
    then row.(status := DeadLetter, reason := Some("retention_expired"))
    else row
  }

  function Swept(rows: map<Uuid, Row>, maxAttempts: int, reap: Time, retire: Time): map<Uuid, Row> {
    map id | id in rows :: Retired(Reaped(rows[id], maxAttempts, reap), retire)
  }

  function Flying(rows: map<Uuid, Row>): set<Uuid> {
    set id | id in rows && rows[id].status == InFlight
  }

  predicate Ready(row: Row, now: Time) {
    row.status == Available && row.availableAt <= now && row.expiresAt > now
  }

  /** Higher priority first, then earlier availability, earlier creation, smaller id. */
  predicate Before(a: Row, x: Uuid, b: Row, y: Uuid) {
    if a.priority != b.priority then a.priority > b.priority
    else if a.availableAt != b.availableAt then a.availableAt < b.availableAt
    else if a.createdAt != b.createdAt then a.createdAt < b.createdAt
    else x < y
  }

  predicate Ahead(rows: map<Uuid, Row>, x: Uuid, y: Uuid) {
    x in rows && y in rows && Before(rows[x], x, rows[y], y)
  }

  lemma OneAhead(rows: map<Uuid, Row>, x: Uuid, y: Uuid)
    requires x in rows && y in rows && x != y
    ensures Ahead(rows, x, y) != Ahead(rows, y, x)
  {
  }

  lemma AheadOf(rows: map<Uuid, Row>, x: Uuid, y: Uuid, z: Uuid)
    requires Ahead(rows, x, y) && Ahead(rows, y, z)
    ensures Ahead(rows, x, z)
  {
  }

  predicate IsFirst(rows: map<Uuid, Row>, pool: set<Uuid>, x: Uuid) {
    x in pool && forall y | y in pool :: y == x || Ahead(rows, x, y)
  }

  lemma {:induction false} FirstExists(rows: map<Uuid, Row>, pool: set<Uuid>)
    requires pool <= rows.Keys && |pool| > 0
    ensures exists x :: x in pool && IsFirst(rows, pool, x)
    decreases |pool|
  {
    hide Ahead;
    var y := Sets.Pick(pool);
    var rest := pool - {y};
    assert forall z | z in pool :: z == y || z in rest;
    if |rest| == 0 {
      assert IsFirst(rows, pool, y);
    } else {
      FirstExists(rows, rest);
      var x :| x in rest && IsFirst(rows, rest, x);
      OneAhead(rows, x, y);
      if Ahead(rows, y, x) {
        forall z | z in rest && z != x ensures Ahead(rows, y, z) { AheadOf(rows, y, x, z); }
        assert IsFirst(rows, pool, y);
      } else {
        assert IsFirst(rows, pool, x);
      }
    }
  }

  /** The first row of a pool in pull order. */
  function First(rows: map<Uuid, Row>, pool: set<Uuid>): (x: Uuid)
    requires pool <= rows.Keys && |pool| > 0
    ensures IsFirst(rows, pool, x)
  {
    FirstExists(rows, pool);
    var x :| x in pool && IsFirst(rows, pool, x);
    x
  }

  /** ORDER BY … LIMIT: the first `limit` rows of the pool, in pull order. */
  function Select(rows: map<Uuid, Row>, pool: set<Uuid>, limit: nat): (ids: seq<Uuid>)
    requires pool <= rows.Keys
    ensures |ids| == if limit <= |pool| then limit else |pool|
    ensures forall i | 0 <= i < |ids| :: ids[i] in pool
    ensures forall i, j | 0 <= i < j < |ids| :: ids[i] != ids[j]
  {
    if limit == 0 || |pool| == 0 then []
    else
      var x := First(rows, pool);
      [x] + Select(rows, pool - {x}, limit - 1)
  }

  /** Every listed row comes before `y`. */
  ghost predicate AllAhead(rows: map<Uuid, Row>, ids: seq<Uuid>, y: Uuid) {
    forall i | 0 <= i < |ids| :: Ahead(rows, ids[i], y)
  }

  /** In order, and before everything left out; nothing is left out unless the limit is reached. */
  ghost predicate IsTop(rows: map<Uuid, Row>, pool: set<Uuid>, limit: nat, ids: seq<Uuid>) {
    && |ids| <= limit && (|ids| < limit ==> forall y | y in pool :: y in ids)
    && (forall i | 0 <= i < |ids| :: ids[i] in pool)
    && (forall i, j | 0 <= i < j < |ids| :: Ahead(rows, ids[i], ids[j]))
    && (forall y | y in pool && y !in ids :: AllAhead(rows, ids, y))
  }

  lemma TopCons(rows: map<Uuid, Row>, pool: set<Uuid>, limit: nat, x: Uuid, rest: seq<Uuid>)
    requires limit > 0 && IsFirst(rows, pool, x) && IsTop(rows, pool - {x}, limit - 1, rest)
    ensures IsTop(rows, pool, limit, [x] + rest)
  {
    hide Ahead;
    var ids := [x] + rest;
    assert forall i | 0 < i < |ids| :: ids[i] == rest[i - 1];
    forall y | y in pool && y !in ids ensures AllAhead(rows, ids, y) {
      assert ids[0] == x && y !in rest;
      assert AllAhead(rows, rest, y);
    }
    if |ids| < limit {
      forall y | y in pool ensures y in ids {
        assert y == ids[0] || y in rest;
      }
    }
  }

  lemma TopNone(rows: map<Uuid, Row>, pool: set<Uuid>, limit: nat, ids: seq<Uuid>)
    requires |pool| == 0 || limit == 0
    ensures IsTop(rows, pool, limit, ids) <==> ids == []
  {
    if ids != [] {
      assert ids[0] !in pool || limit == 0;
    }
  }

  lemma {:induction false} SelectIsTop(rows: map<Uuid, Row>, pool: set<Uuid>, limit: nat)
    requires pool <= rows.Keys
    ensures IsTop(rows, pool, limit, Select(rows, pool, limit))
    decreases limit
  {
    hide Ahead, IsTop, IsFirst;
    if limit == 0 || |pool| == 0 {
      TopNone(rows, pool, limit, []);
    } else {
      var x := First(rows, pool);
      SelectIsTop(rows, pool - {x}, limit - 1);
      TopCons(rows, pool, limit, x, Select(rows, pool - {x}, limit - 1));
    }
  }

  lemma TopUncons(rows: map<Uuid, Row>, pool: set<Uuid>, limit: nat, x: Uuid, ids: seq<Uuid>)
    requires pool <= rows.Keys && limit > 0 && IsFirst(rows, pool, x) && IsTop(rows, pool, limit, ids)
    ensures ids != [] && ids[0] == x && IsTop(rows, pool - {x}, limit - 1, ids[1..])
  {
    hide Ahead;
    assert x in ids by {
      if x !in ids {
        assert |ids| == limit && AllAhead(rows, ids, x);
        OneAhead(rows, x, ids[0]);
      }
    }
    var k :| 0 <= k < |ids| && ids[k] == x;
    if k > 0 {
      assert Ahead(rows, ids[0], x);
      if ids[0] != x { OneAhead(rows, x, ids[0]); }
    }
    var rest := ids[1..];
    forall y | y in pool - {x} && y !in rest ensures AllAhead(rows, rest, y) {
      assert y !in ids && AllAhead(rows, ids, y);
    }
    forall i | 0 <= i < |rest| ensures rest[i] in pool - {x} {
      assert Ahead(rows, ids[0], ids[i + 1]);
      NotAheadOfSelf(rows, x);
    }
  }

  lemma NotAheadOfSelf(rows: map<Uuid, Row>, x: Uuid)
    ensures !Ahead(rows, x, x)
  {
  }

  /** Pull order leaves no choice: any sequence with that description is the selected one. */
  lemma {:induction false} SelectUnique(rows: map<Uuid, Row>, pool: set<Uuid>, limit: nat, ids: seq<Uuid>)
    requires pool <= rows.Keys && IsTop(rows, pool, limit, ids)
    ensures ids == Select(rows, pool, limit)
    decreases limit
  {
    hide IsTop, Ahead, IsFirst;
    if |pool| == 0 || limit == 0 {
      TopNone(rows, pool, limit, ids);
    } else {
      var x := First(rows, pool);
      TopUncons(rows, pool, limit, x, ids);
      SelectUnique(rows, pool - {x}, limit - 1, ids[1..]);
    }
  }

  /** What a pull hands out. */
  datatype Item = Item(id: Uuid, receipt: string, attempt: int, generation: int, until: Time)

  /** The readings of a pull: for the two sweeps, the selection, and each lease. */
  datatype PullTimes = PullTimes(reap: Time, retire: Time, select: Time, leases: seq<Time>)

  datatype Batch = Batch(rows: map<Uuid, Row>, log: set<Entry>, items: seq<Item>)

  function LeasedRow(row: Row, receipt: string, now: Time, visible: int, total: int): Row {
    row.(status := InFlight, attempts := row.attempts + 1,
         lease := Some(Lease(receipt, now, Min(Min(now + visible * SECOND, now + total * SECOND), row.expiresAt),
                             now + total * SECOND)))
  }

  /** Lease one selected row; None when the log refuses the entry or the payload cannot be read. */
  function LeaseOne(b: Batch, id: Uuid, receipt: string, now: Time, readable: bool, visible: int, total: int)
    : Option<Batch>
    requires id in b.rows
  {
    var row := b.rows[id];
    var leased := LeasedRow(row, receipt, now, visible, total);
    var entry := Entry(id, row.generation, leased.attempts, LeasedOut);
    if entry in b.log || !readable then None
    else Some(Batch(b.rows[id := leased], b.log + {entry},
                    b.items + [Item(id, receipt, leased.attempts, row.generation, leased.lease.value.until)]))
  }

  /** The first `n` selected rows leased in order. */
  function LeaseBatch(b: Batch, ids: seq<Uuid>, receipts: seq<string>, times: seq<Time>, bad: set<Uuid>,
                      visible: int, total: int, n: nat): (r: Option<Batch>)
    requires n <= |ids| && n <= |receipts| && n <= |times| && forall i | 0 <= i < n :: ids[i] in b.rows
    ensures r.Some? ==> r.value.rows.Keys == b.rows.Keys
  {
    if n == 0 then Some(b)
    else
      var prior := LeaseBatch(b, ids, receipts, times, bad, visible, total, n - 1);
      if prior.None? then None
      else LeaseOne(prior.value, ids[n - 1], receipts[n - 1], times[n - 1], ids[n - 1] !in bad, visible, total)
  }

  function Pool(rows: map<Uuid, Row>, now: Time, skipped: set<Uuid>): set<Uuid> {
    set id | id in rows && Ready(rows[id], now) && id !in skipped
  }

  lemma PoolInRows(rows: map<Uuid, Row>, now: Time, skipped: set<Uuid>)
    ensures Pool(rows, now, skipped) <= rows.Keys
  {
  }

  /** How many rows a pull may lease. */
  function Room(policy: Policy, want: Option<nat>, flying: nat): (n: nat)
    ensures n <= 100 && n <= Max(policy.maxBatch, 1) && (want.Some? && want.value > 0 ==> n <= want.value)
    ensures n > 0 ==> flying + n <= policy.maxInFlight
    ensures n == 0 <==> flying >= policy.maxInFlight
    ensures || n == 100 || n == Max(policy.maxBatch, 1) || flying + n >= policy.maxInFlight
            || n == (if want.Some? then Max(want.value, 1) else 10)
  {
    var asked := Clamp(if want.Some? then want.value else 10, 1, 100);
    Min(Min(asked, Max(policy.maxBatch, 1)), Max(policy.maxInFlight - flying, 0))
  }

  /** How long a lease stays invisible, in seconds. */
  function Visible(p: Policy, visibility: Option<nat>): int {
    Min(Clamp(if visibility.Some? then visibility.value else 60, 1, 3600), Max(p.maxVisibility, 1))
  }

  predicate Open(policy: Option<Policy>) {
    policy.Some? && policy.value.enabled && !policy.value.paused && !policy.value.draining
  }

  /** `skipped` are rows locked by other transactions, `bad` rows whose payload cannot be decoded. */
  function Pull(q: Queue, policy: Option<Policy>, want: Option<nat>, visibility: Option<nat>, skipped: set<Uuid>,
                receipts: seq<string>, bad: set<Uuid>, at: PullTimes): Answer<seq<Item>>
    requires |receipts| >= 100 && |at.leases| >= 100
  {
    if !Open(policy) then Answer(q, Err(Conflict))
    else
      var p := policy.value;
      var rows := Swept(q.rows, p.maxAttempts, at.reap, at.retire);
      var limit := Room(p, want, |Flying(rows)|);
      if limit == 0 then Answer(Queue(at.retire, rows, q.log), Ok([]))
      else
        var ids := Select(rows, Pool(rows, at.select, skipped), limit);
        var b := LeaseBatch(Batch(rows, q.log, []), ids, receipts, at.leases, bad, Visible(p, visibility),
                            Max(p.maxTotalLease, 1), |ids|);
        if b.None? then Answer(q, Err(Internal))
        else Answer(Queue(if ids == [] then at.select else at.leases[|ids| - 1], b.value.rows, b.value.log),
                    Ok(b.value.items))
  }

  // ---- settle ------------------------------------------------------------------------

  datatype Settlement = Settlement(receipt: string, disposition: string, delay: Option<nat>, reason: Option<string>)

  /** Receipts are 1 to 512 bytes long. */
  predicate Spelled(receipt: string) {
    receipt != "" && Utf8Length(receipt) <= 512
  }

  predicate WellFormed(item: Settlement) {
    Spelled(item.receipt) && item.disposition in {"acked", "available", "dead_letter"}
  }

  function StatusOf(disposition: string): Status {
    if disposition == "acked" then Acked else if disposition == "available" then Available else DeadLetter
  }

  /** Rows leased under the receipt whose lease has not run out; at most one, since receipts are unique. */
  function Holders(rows: map<Uuid, Row>, receipt: string, now: Time): set<Uuid> {
    set id | id in rows && rows[id].status == InFlight && rows[id].lease.Some?
             && rows[id].lease.value.receipt == receipt && rows[id].lease.value.until > now
  }

  function SettledRow(row: Row, item: Settlement, maxAttempts: int, now: Time): Row {
    var requeue := item.disposition == "available";
    var delay := Min(if item.delay.Some? then item.delay.value else 0, 86_400);
    row.(status := if requeue && row.attempts >= maxAttempts then DeadLetter else StatusOf(item.disposition),
         availableAt := if requeue then now + delay * SECOND else row.availableAt,
         lease := None,
         reason := if item.reason == Some("") then None else item.reason)
  }

  /** Ok(None) reports an invalid receipt. */
  function SettleOne(q: Queue, maxAttempts: int, item: Settlement, now: Time): Answer<Option<Status>> {
    if !WellFormed(item) then Answer(q, Err(InvalidInput))
    else
      var holders := Holders(q.rows, item.receipt, now);
      if |holders| == 0 then Answer(q.(clock := now), Ok(None))
      else
        var id := First(q.rows, holders);
        var row := SettledRow(q.rows[id], item, maxAttempts, now);
        var entry := Entry(id, row.generation, row.attempts, Closed(row.status));
        if entry in q.log then Answer(q, Err(Internal))
        else Answer(Queue(now, q.rows[id := row], q.log + {entry}), Ok(Some(row.status)))
  }

  /** The first `n` items in order; one refusal aborts everything. */
  function SettleBatch(q: Queue, maxAttempts: int, items: seq<Settlement>, times: seq<Time>, n: nat)
    : Answer<seq<Option<Status>>>
    requires n <= |items| && n <= |times|
  {
    if n == 0 then Answer(q, Ok([]))
    else
      var prior := SettleBatch(q, maxAttempts, items, times, n - 1);
      if prior.result.Err? then prior
      else
        var one := SettleOne(prior.queue, maxAttempts, items[n - 1], times[n - 1]);
        if one.result.Err? then Answer(q, Err(one.result.error))
        else Answer(one.queue, Ok(prior.result.value + [one.result.value]))
  }

  function Settle(q: Queue, maxAttempts: Option<int>, items: seq<Settlement>, times: seq<Time>)
    : Answer<seq<Option<Status>>>
    requires |items| <= |times|
  {
    if |items| > 100 then Answer(q, Err(InvalidInput))
    else if maxAttempts.None? then Answer(q, Err(Conflict))
    else SettleBatch(q, maxAttempts.value, items, times, |items|)
  }

  // ---- extend ------------------------------------------------------------------------

  datatype Extension = Extension(receipt: string, seconds: nat)

  function ExtendedRow(row: Row, seconds: nat): Row
    requires row.lease.Some?
  {
    var lease := row.lease.value;
    row.(lease := Some(lease.(until := Min(lease.until + seconds * SECOND, lease.cap))))
  }

  predicate Extensible(item: Extension) {
    item.receipt != "" && 1 <= item.seconds <= 3600
  }

  function ExtendOne(q: Queue, item: Extension, now: Time): Answer<bool> {
    if !Extensible(item) then Answer(q, Err(InvalidInput))
    else
      var holders := Holders(q.rows, item.receipt, now);
      if |holders| == 0 then Answer(q.(clock := now), Ok(false))
      else
        var id := First(q.rows, holders);
        Answer(q.(clock := now, rows := q.rows[id := ExtendedRow(q.rows[id], item.seconds)]), Ok(true))
  }

  function ExtendBatch(q: Queue, items: seq<Extension>, times: seq<Time>, n: nat): Answer<seq<bool>>
    requires n <= |items| && n <= |times|
  {
    if n == 0 then Answer(q, Ok([]))
    else
      var prior := ExtendBatch(q, items, times, n - 1);
      if prior.result.Err? then prior
      else
        var one := ExtendOne(prior.queue, items[n - 1], times[n - 1]);
        if one.result.Err? then Answer(q, Err(one.result.error))
        else Answer(one.queue, Ok(prior.result.value + [one.result.value]))
  }

  function Extend(q: Queue, items: seq<Extension>, times: seq<Time>): Answer<seq<bool>>
    requires |items| <= |times|
  {
    if |items| > 100 then Answer(q, Err(InvalidInput)) else ExtendBatch(q, items, times, |items|)
  }

  // ---- dead letters and arrivals -------------------------------------------------------

  function Dead(rows: map<Uuid, Row>, ids: seq<Uuid>): set<Uuid> {
    set id | id in rows && rows[id].status == DeadLetter && id in ids
  }

  function Revived(row: Row, now: Time): Row {
    row.(status := Available, generation := row.generation + 1, attempts := 0, availableAt := now, lease := None,
         reason := None)
  }

  function ReplayDead(q: Queue, ids: seq<Uuid>, now: Time): Answer<nat> {
    if |ids| > 100 then Answer(q, Err(InvalidInput))
    else
      var dead := Dead(q.rows, ids);
      Answer(q.(clock := now,
                rows := map id | id in q.rows :: if id in dead then Revived(q.rows[id], now) else q.rows[id]),
             Ok(|dead|))
  }

  /** The log rows go with their delivery. */
  function DeleteDead(q: Queue, ids: seq<Uuid>): Answer<nat> {
    if |ids| > 100 then Answer(q, Err(InvalidInput))
    else
      var dead := Dead(q.rows, ids);
      Answer(q.(rows := q.rows - dead, log := set e | e in q.log && e.delivery !in dead), Ok(|dead|))
  }

  function Arrived(priority: int, expiresAt: Time, now: Time): Row {
    Row(1, Available, 0, now, priority, now, expiresAt, None, None)
  }
}
