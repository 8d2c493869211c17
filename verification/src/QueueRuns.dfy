/** Runs of one pull queue: every interleaving of arrivals, pulls, settlements, extensions, replays and deletions. */
module QueueRuns {
  import opened Protocol
  import opened Queues
  import Sets

  /** The queue with every receipt and delivery id drawn so far. */
  datatype World = World(queue: Queue, receipts: set<string>, ids: set<Uuid>)

  datatype Step =
    | Arriving(id: Uuid, priority: int, expiresAt: Time, now: Time)
    | Pulling(policy: Option<Policy>, want: Option<nat>, visibility: Option<nat>, skipped: set<Uuid>,
              receipts: seq<string>, bad: set<Uuid>, at: PullTimes)
    | Settling(maxAttempts: Option<int>, items: seq<Settlement>, times: seq<Time>)
    | Extending(extensions: seq<Extension>, times: seq<Time>)
    | Replaying(ids: seq<Uuid>, now: Time)
    | Deleting(ids: seq<Uuid>)

  ghost predicate Drawn(w: World, receipts: seq<string>) {
    && (forall i | 0 <= i < |receipts| :: receipts[i] !in w.receipts && Spelled(receipts[i]))
    && (forall i, j | 0 <= i < j < |receipts| :: receipts[i] != receipts[j])
  }

  ghost predicate Enabled(w: World, s: Step) {
    match s
    case Arriving(id, _, _, now) => id !in w.ids && w.queue.clock <= now
    case Pulling(_, _, _, _, receipts, _, at) =>
      && |receipts| == 100 && |at.leases| == 100 && Drawn(w, receipts)
      && w.queue.clock <= at.reap <= at.retire <= at.select && Rising(at.select, at.leases)
    case Settling(_, items, times) => |items| == |times| && Rising(w.queue.clock, times)
    case Extending(extensions, times) => |extensions| == |times| && Rising(w.queue.clock, times)
    case Replaying(_, now) => w.queue.clock <= now
    case Deleting(_) => true
  }

  function Apply(w: World, s: Step): World
    requires s.Pulling? ==> |s.receipts| >= 100 && |s.at.leases| >= 100
    requires s.Settling? ==> |s.items| <= |s.times|
    requires s.Extending? ==> |s.extensions| <= |s.times|
  {
    match s
    case Arriving(id, priority, expiresAt, now) =>
      World(w.queue.(clock := now, rows := w.queue.rows[id := Arrived(priority, expiresAt, now)]), w.receipts,
            w.ids + {id})
    case Pulling(policy, want, visibility, skipped, receipts, bad, at) =>
      World(Pull(w.queue, policy, want, visibility, skipped, receipts, bad, at).queue,
            w.receipts + (set r | r in receipts), w.ids)
    case Settling(maxAttempts, items, times) => w.(queue := Settle(w.queue, maxAttempts, items, times).queue)
    case Extending(extensions, times) => w.(queue := Extend(w.queue, extensions, times).queue)
    case Replaying(ids, now) => w.(queue := ReplayDead(w.queue, ids, now).queue)
    case Deleting(ids) => w.(queue := DeleteDead(w.queue, ids).queue)
  }

  // ---- what every row keeps ------------------------------------------------------------

  /** The CHECK constraints on a row, and the lease never ends after its cap. */
  predicate RowOk(row: Row) {
    && row.generation >= 1 && row.attempts >= 0
    && (row.status == InFlight <==> row.lease.Some?)
    && (row.lease.Some? ==> row.attempts >= 1 && row.lease.value.until <= row.lease.value.cap)
  }

  /** The entry lies in the row's past; an open attempt has no closing entry. */
  predicate Past(row: Row, e: Entry) {
    && 1 <= e.generation <= row.generation && 1 <= e.attempt
    && (e.generation == row.generation ==>
          e.attempt <= row.attempts && (e.attempt == row.attempts && row.status == InFlight ==> e.outcome == LeasedOut))
  }

  /** The log of a row: every attempt of its generation has its lease entry, and nothing lies ahead. */
  ghost predicate Logged(id: Uuid, row: Row, log: set<Entry>) {
    && (forall n | 1 <= n <= row.attempts :: Entry(id, row.generation, n, LeasedOut) in log)
    && (forall e | e in log && e.delivery == id :: Past(row, e))
  }

  /** Live receipts are pairwise different and were all drawn. */
  ghost predicate ReceiptsOk(rows: map<Uuid, Row>, drawn: set<string>) {
    && (forall id | id in rows && rows[id].lease.Some? :: rows[id].lease.value.receipt in drawn)
    && (forall x, y | x in rows && y in rows && x != y && rows[x].lease.Some? && rows[y].lease.Some? ::
          rows[x].lease.value.receipt != rows[y].lease.value.receipt)
  }

  ghost predicate QueueOk(q: Queue, drawn: set<string>) {
    && (forall id | id in q.rows :: RowOk(q.rows[id]))
    && (forall id | id in q.rows :: Logged(id, q.rows[id], q.log))
    && (forall e | e in q.log :: e.delivery in q.rows)
    && ReceiptsOk(q.rows, drawn)
  }

  ghost predicate AllSpelled(receipts: set<string>) {
    forall x | x in receipts :: Spelled(x)
  }

  ghost predicate Inv(w: World) {
    QueueOk(w.queue, w.receipts) && w.queue.rows.Keys <= w.ids && AllSpelled(w.receipts)
  }

  /** A lease that was there before is the same one, possibly extended. */
  predicate SameLease(row: Row, after: Row) {
    && row.lease.Some? && after.lease.Some? && after.generation == row.generation && after.attempts == row.attempts
    && after.lease.value == row.lease.value.(until := after.lease.value.until)
    && row.lease.value.until <= after.lease.value.until
  }

  /** A row handed out anew: the next attempt of its generation under a receipt drawn just now. */
  predicate NewLease(row: Row, after: Row, issued: set<string>) {
    && after.lease.Some? && after.lease.value.receipt in issued
    && after.generation == row.generation && after.attempts == row.attempts + 1
  }

  /** How any operation may change a row. */
  predicate Moves(row: Row, after: Row, issued: set<string>) {
    && after.priority == row.priority && after.createdAt == row.createdAt && after.expiresAt == row.expiresAt
    && (row.status == Acked ==> after == row)
    && (row.generation < after.generation || (row.generation == after.generation && row.attempts <= after.attempts))
    && (after.lease.Some? ==> SameLease(row, after) || NewLease(row, after, issued))
  }

  // ---- single writes -------------------------------------------------------------------

  /** No other row carries the lease's receipt. */
  ghost predicate OwnReceipt(rows: map<Uuid, Row>, id: Uuid, after: Row) {
    after.lease.Some? ==>
      forall x | x in rows && x != id && rows[x].lease.Some? :: rows[x].lease.value.receipt != after.lease.value.receipt
  }

  lemma PutOk(q: Queue, drawn: set<string>, id: Uuid, after: Row, added: set<Entry>, clock: Time)
    requires QueueOk(q, drawn) && id in q.rows && RowOk(after) && Logged(id, after, q.log + added)
    requires forall e | e in added :: e.delivery == id
    requires after.lease.Some? ==> after.lease.value.receipt in drawn
    requires OwnReceipt(q.rows, id, after)
    ensures QueueOk(Queue(clock, q.rows[id := after], q.log + added), drawn)
  {
    hide RowOk, Past;
    var rows, log := q.rows[id := after], q.log + added;
    forall x | x in rows ensures Logged(x, rows[x], log) {
      if x != id { assert Logged(x, q.rows[x], q.log); }
    }
  }

  /** The row still leased under a live receipt. */
  lemma HolderFacts(q: Queue, drawn: set<string>, receipt: string, now: Time)
    requires QueueOk(q, drawn) && |Holders(q.rows, receipt, now)| > 0
    ensures var id := First(q.rows, Holders(q.rows, receipt, now));
      && id in q.rows && q.rows[id].status == InFlight && q.rows[id].lease.Some?
      && q.rows[id].lease.value.receipt == receipt && q.rows[id].lease.value.until > now
      && RowOk(q.rows[id]) && Logged(id, q.rows[id], q.log)
      && Holders(q.rows, receipt, now) == {id}
  {
    hide RowOk, Logged, Past;
    var id := First(q.rows, Holders(q.rows, receipt, now));
    assert id in Holders(q.rows, receipt, now);
  }

  lemma SettledLogged(id: Uuid, row: Row, item: Settlement, maxAttempts: int, now: Time, log: set<Entry>)
    requires RowOk(row) && row.status == InFlight && Logged(id, row, log)
    ensures var after := SettledRow(row, item, maxAttempts, now);
      var e := Entry(id, after.generation, after.attempts, Closed(after.status));
      e !in log && RowOk(after) && Logged(id, after, log + {e}) && Moves(row, after, {})
  {
    var after := SettledRow(row, item, maxAttempts, now);
    var e := Entry(id, after.generation, after.attempts, Closed(after.status));
    assert e in log ==> Past(row, e);
    forall d | d in log + {e} && d.delivery == id ensures Past(after, d) {
      assert d != e ==> Past(row, d);
    }
  }

  /** One item touches at most the row of its receipt, and the log never refuses it. */
  lemma SettleOneOk(q: Queue, drawn: set<string>, maxAttempts: int, item: Settlement, now: Time)
    requires QueueOk(q, drawn)
    ensures var a := SettleOne(q, maxAttempts, item, now);
      && QueueOk(a.queue, drawn) && a.queue.rows.Keys == q.rows.Keys
      && (a.result.Err? <==> !WellFormed(item)) && (a.result.Err? ==> a.result == Err(InvalidInput))
      && (forall id | id in q.rows :: Moves(q.rows[id], a.queue.rows[id], {}))
      && (a.result.Ok? && a.result.value.Some? ==> !Attached(a.queue.rows, item.receipt))
  {
    hide Logged, Past, SettledRow;
    MovesNot(q.rows);
    if WellFormed(item) && |Holders(q.rows, item.receipt, now)| > 0 {
      HolderFacts(q, drawn, item.receipt, now);
      var id := First(q.rows, Holders(q.rows, item.receipt, now));
      SettledLogged(id, q.rows[id], item, maxAttempts, now, q.log);
      var after := SettledRow(q.rows[id], item, maxAttempts, now);
      NoLease(q.rows[id], item, maxAttempts, now);
      PutOk(q, drawn, id, after, {Entry(id, after.generation, after.attempts, Closed(after.status))}, now);
    }
  }

  lemma NoLease(row: Row, item: Settlement, maxAttempts: int, now: Time)
    ensures SettledRow(row, item, maxAttempts, now).lease.None?
  {
  }

  /** Some row is leased under the receipt. */
  ghost predicate Attached(rows: map<Uuid, Row>, receipt: string) {
    exists id :: id in rows && rows[id].lease.Some? && rows[id].lease.value.receipt == receipt
  }

  lemma MovesNot(rows: map<Uuid, Row>)
    ensures forall id | id in rows :: Moves(rows[id], rows[id], {})
  {
  }

  lemma MovesTwice(a: Row, b: Row, c: Row)
    requires Moves(a, b, {}) && Moves(b, c, {})
    ensures Moves(a, c, {})
  {
  }

  // ---- batches ---------------------------------------------------------------------------

  ghost predicate AllMove(rows: map<Uuid, Row>, after: map<Uuid, Row>) {
    after.Keys == rows.Keys && forall id | id in rows :: Moves(rows[id], after[id], {})
  }

  lemma AllMoveTwice(a: map<Uuid, Row>, b: map<Uuid, Row>, c: map<Uuid, Row>)
    requires AllMove(a, b) && AllMove(b, c)
    ensures AllMove(a, c)
  {
    hide Moves;
    forall id | id in a ensures Moves(a[id], c[id], {}) { MovesTwice(a[id], b[id], c[id]); }
  }

  /** A receipt that no row carries stays off every row unless it is drawn again. */
  lemma StaysDetached(rows: map<Uuid, Row>, after: map<Uuid, Row>, receipt: string)
    requires AllMove(rows, after) && !Attached(rows, receipt)
    ensures !Attached(after, receipt)
  {
    forall id | id in after && after[id].lease.Some? ensures after[id].lease.value.receipt != receipt {
      assert Moves(rows[id], after[id], {});
    }
  }

  /** Every receipt accepted among the first `n` items is off all rows. */
  ghost predicate Spent(rows: map<Uuid, Row>, items: seq<Settlement>, answers: seq<Option<Status>>, n: nat)
    requires n <= |items|
  {
    |answers| == n && forall i | 0 <= i < n && answers[i].Some? :: !Attached(rows, items[i].receipt)
  }

  /** The batch is refused exactly for a malformed item; accepted items name receipts that end detached. */
  lemma {:induction false} SettleBatchOk(q: Queue, drawn: set<string>, maxAttempts: int, items: seq<Settlement>,
                                         times: seq<Time>, n: nat)
    requires QueueOk(q, drawn) && n <= |items| && n <= |times|
    ensures var a := SettleBatch(q, maxAttempts, items, times, n);
      && QueueOk(a.queue, drawn) && AllMove(q.rows, a.queue.rows)
      && (a.result.Ok? <==> forall i | 0 <= i < n :: WellFormed(items[i]))
      && (a.result.Err? ==> a == Answer(q, Err(InvalidInput)))
      && (a.result.Ok? ==> Spent(a.queue.rows, items, a.result.value, n))
  {
    hide QueueOk, Moves, WellFormed, Attached, SettleOne;
    MovesNot(q.rows);
    if n > 0 {
      SettleBatchOk(q, drawn, maxAttempts, items, times, n - 1);
      var prior := SettleBatch(q, maxAttempts, items, times, n - 1);
      if prior.result.Ok? {
        var one := SettleOne(prior.queue, maxAttempts, items[n - 1], times[n - 1]);
        SettleOneOk(prior.queue, drawn, maxAttempts, items[n - 1], times[n - 1]);
        AllMoveTwice(q.rows, prior.queue.rows, one.queue.rows);
        forall i | 0 <= i < n - 1 && prior.result.value[i].Some? ensures !Attached(one.queue.rows, items[i].receipt) {
          StaysDetached(prior.queue.rows, one.queue.rows, items[i].receipt);
        }
      }
    }
  }

  lemma ExtendOneOk(q: Queue, drawn: set<string>, item: Extension, now: Time)
    requires QueueOk(q, drawn)
    ensures var a := ExtendOne(q, item, now);
      && QueueOk(a.queue, drawn) && AllMove(q.rows, a.queue.rows) && a.queue.log == q.log
      && (a.result.Ok? <==> Extensible(item)) && (a.result.Err? ==> a.result == Err(InvalidInput))
  {
    hide Past;
    MovesNot(q.rows);
    var a := ExtendOne(q, item, now);
    if a.result.Ok? && |Holders(q.rows, item.receipt, now)| > 0 {
      HolderFacts(q, drawn, item.receipt, now);
      var id := First(q.rows, Holders(q.rows, item.receipt, now));
      var after := ExtendedRow(q.rows[id], item.seconds);
      ExtendedLogged(id, q.rows[id], item.seconds, q.log);
      assert q.log + {} == q.log;
      PutOk(q, drawn, id, after, {}, now);
    }
  }

  lemma ExtendedLogged(id: Uuid, row: Row, seconds: nat, log: set<Entry>)
    requires RowOk(row) && row.lease.Some? && Logged(id, row, log)
    ensures var after := ExtendedRow(row, seconds);
      RowOk(after) && Logged(id, after, log) && Moves(row, after, {})
  {
    var after := ExtendedRow(row, seconds);
    forall e | e in log && e.delivery == id ensures Past(after, e) { assert Past(row, e); }
  }

  /** The batch is refused as a whole exactly for a malformed item. */
  lemma {:induction false} ExtendBatchOk(q: Queue, drawn: set<string>, items: seq<Extension>, times: seq<Time>, n: nat)
    requires QueueOk(q, drawn) && n <= |items| && n <= |times|
    ensures var a := ExtendBatch(q, items, times, n);
      && QueueOk(a.queue, drawn) && AllMove(q.rows, a.queue.rows)
      && (a.result.Ok? <==> forall i | 0 <= i < n :: Extensible(items[i]))
      && (a.result.Err? ==> a == Answer(q, Err(InvalidInput)))
  {
    hide QueueOk, Moves, ExtendOne, Extensible;
    MovesNot(q.rows);
    if n > 0 {
      ExtendBatchOk(q, drawn, items, times, n - 1);
      var prior := ExtendBatch(q, items, times, n - 1);
      if prior.result.Ok? {
        ExtendOneOk(prior.queue, drawn, items[n - 1], times[n - 1]);
        AllMoveTwice(q.rows, prior.queue.rows, ExtendOne(prior.queue, items[n - 1], times[n - 1]).queue.rows);
      }
    }
  }

  // ---- pull ------------------------------------------------------------------------------

  /** A sweep ends leases and never starts or renumbers one. */
  lemma SweptRow(id: Uuid, row: Row, maxAttempts: int, reap: Time, retire: Time, log: set<Entry>)
    requires RowOk(row) && Logged(id, row, log)
    ensures var after := Retired(Reaped(row, maxAttempts, reap), retire);
      && RowOk(after) && Logged(id, after, log) && Moves(row, after, {})
      && after.generation == row.generation && after.attempts == row.attempts
      && (after.lease.Some? ==> after == row)
  {
    var after := Retired(Reaped(row, maxAttempts, reap), retire);
    forall e | e in log && e.delivery == id ensures Past(after, e) { assert Past(row, e); }
  }

  lemma SweptOk(q: Queue, drawn: set<string>, maxAttempts: int, reap: Time, retire: Time, clock: Time)
    requires QueueOk(q, drawn)
    ensures var rows := Swept(q.rows, maxAttempts, reap, retire);
      QueueOk(Queue(clock, rows, q.log), drawn) && AllMove(q.rows, rows) && Flying(rows) <= Flying(q.rows)
  {
    hide RowOk, Logged, Moves, Reaped, Retired;
    var rows := Swept(q.rows, maxAttempts, reap, retire);
    forall id | id in q.rows
      ensures RowOk(rows[id]) && Logged(id, rows[id], q.log) && Moves(q.rows[id], rows[id], {})
      ensures rows[id].lease.Some? ==> rows[id] == q.rows[id]
    {
      SweptRow(id, q.rows[id], maxAttempts, reap, retire, q.log);
    }
    forall id | id in Flying(rows) ensures id in Flying(q.rows) {
      FlyingHasLease(rows[id]);
    }
  }

  lemma FlyingHasLease(row: Row)
    requires RowOk(row) && row.status == InFlight
    ensures row.lease.Some?
  {
  }

  lemma LeasedLogged(id: Uuid, row: Row, receipt: string, now: Time, visible: int, total: int, log: set<Entry>)
    requires RowOk(row) && row.status == Available && Logged(id, row, log)
    ensures var after := LeasedRow(row, receipt, now, visible, total);
      var e := Entry(id, row.generation, after.attempts, LeasedOut);
      e !in log && RowOk(after) && Logged(id, after, log + {e})
  {
    var after := LeasedRow(row, receipt, now, visible, total);
    var e := Entry(id, row.generation, after.attempts, LeasedOut);
    assert e in log ==> Past(row, e);
    forall d | d in log + {e} && d.delivery == id ensures Past(after, d) {
      assert d != e ==> Past(row, d);
    }
  }

  /** The selected rows and receipts of a pull. */
  ghost predicate Selected(rows: map<Uuid, Row>, ids: seq<Uuid>, receipts: seq<string>, drawn: set<string>) {
    && |ids| <= |receipts|
    && (forall i | 0 <= i < |ids| :: ids[i] in rows && rows[ids[i]].status == Available)
    && (forall i, j | 0 <= i < j < |ids| :: ids[i] != ids[j])
    && (forall i | 0 <= i < |receipts| :: receipts[i] !in drawn)
    && (forall i, j | 0 <= i < j < |receipts| :: receipts[i] != receipts[j])
  }

  ghost function Firsts(receipts: seq<string>, n: nat): set<string>
    requires n <= |receipts|
  {
    set i | 0 <= i < n :: receipts[i]
  }

  /** Row `id` was handed out: it carries its new lease, and the item says so. */
  predicate HandedTo(row: Row, after: Row, item: Item, id: Uuid, receipt: string, now: Time, visible: int, total: int) {
    && after == LeasedRow(row, receipt, now, visible, total)
    && item == Item(id, receipt, after.attempts, after.generation, after.lease.value.until)
  }

  /** After `n` leases: those rows are handed out, the others are as they were. */
  ghost predicate Handed(rows: map<Uuid, Row>, after: Batch, ids: seq<Uuid>, receipts: seq<string>, times: seq<Time>,
                         visible: int, total: int, n: nat)
    requires n <= |ids| && n <= |receipts| && n <= |times|
  {
    && after.rows.Keys == rows.Keys && |after.items| == n
    && (forall id | id in rows && id !in ids[..n] :: after.rows[id] == rows[id])
    && (forall i | 0 <= i < n ::
          ids[i] in rows
              && HandedTo(rows[ids[i]], after.rows[ids[i]], after.items[i], ids[i], receipts[i], times[i], visible,
                          total))
  }

  lemma LeaseOneHands(mid: Batch, after: Batch, id: Uuid, receipt: string, now: Time, visible: int, total: int)
    requires id in mid.rows && LeaseOne(mid, id, receipt, now, true, visible, total) == Some(after)
    ensures after.rows.Keys == mid.rows.Keys && |after.items| == |mid.items| + 1
        && after.items[..|mid.items|] == mid.items
    ensures forall x | x in mid.rows && x != id :: after.rows[x] == mid.rows[x]
    ensures HandedTo(mid.rows[id], after.rows[id], after.items[|mid.items|], id, receipt, now, visible, total)
  {
  }

  lemma HandedMore(rows: map<Uuid, Row>, mid: Batch, after: Batch, ids: seq<Uuid>, receipts: seq<string>,
                   times: seq<Time>, visible: int, total: int, n: nat)
    requires n < |ids| && n < |receipts| && n < |times| && Handed(rows, mid, ids, receipts, times, visible, total, n)
    requires ids[n] in mid.rows && forall i, j | 0 <= i < j < |ids| :: ids[i] != ids[j]
    requires LeaseOne(mid, ids[n], receipts[n], times[n], true, visible, total) == Some(after)
    ensures Handed(rows, after, ids, receipts, times, visible, total, n + 1)
  {
    hide LeasedRow, HandedTo;
    LeaseOneHands(mid, after, ids[n], receipts[n], times[n], visible, total);
    hide LeaseOne;
    assert ids[n] !in ids[..n];
    assert ids[..n + 1] == ids[..n] + [ids[n]];
    forall i | 0 <= i < n + 1
      ensures ids[i] in rows
          && HandedTo(rows[ids[i]], after.rows[ids[i]], after.items[i], ids[i], receipts[i], times[i], visible, total)
    {
      if i < n { assert after.items[i] == mid.items[i] && ids[i] != ids[n]; }
    }
  }

  lemma LeasedFields(row: Row, receipt: string, now: Time, visible: int, total: int)
    ensures var after := LeasedRow(row, receipt, now, visible, total);
      && after.attempts == row.attempts + 1 && after.generation == row.generation
      && after.lease.Some? && after.lease.value.receipt == receipt && after.status == InFlight
  {
  }

  lemma FirstsMore(receipts: seq<string>, n: nat)
    requires n < |receipts|
    ensures Firsts(receipts, n + 1) == Firsts(receipts, n) + {receipts[n]}
  {
  }

  /** One more lease keeps the invariant; the log never refuses it. */
  lemma LeaseOneOk(b: Batch, drawn: set<string>, id: Uuid, receipt: string, now: Time, visible: int, total: int)
    requires QueueOk(Queue(0, b.rows, b.log), drawn) && id in b.rows && b.rows[id].status == Available
        && receipt !in drawn
    ensures var r := LeaseOne(b, id, receipt, now, true, visible, total);
      r.Some? && QueueOk(Queue(0, r.value.rows, r.value.log), drawn + {receipt})
  {
    hide Past;
    var q := Queue(0, b.rows, b.log);
    LeasedLogged(id, b.rows[id], receipt, now, visible, total, b.log);
    LeasedFields(b.rows[id], receipt, now, visible, total);
    var after := LeasedRow(b.rows[id], receipt, now, visible, total);
    hide LeasedRow, Logged, RowOk;
    assert QueueOk(q, drawn + {receipt});
    PutOk(q, drawn + {receipt}, id, after, {Entry(id, b.rows[id].generation, after.attempts, LeasedOut)}, 0);
  }

  lemma {:induction false} LeaseBatchOk(b: Batch, drawn: set<string>, ids: seq<Uuid>, receipts: seq<string>,
                                        times: seq<Time>, bad: set<Uuid>, visible: int, total: int, n: nat)
    requires QueueOk(Queue(0, b.rows, b.log), drawn) && Selected(b.rows, ids, receipts, drawn)
    requires n <= |ids| <= |times| && b.items == []
    ensures var r := LeaseBatch(b, ids, receipts, times, bad, visible, total, n);
      && (r.Some? <==> forall i | 0 <= i < n :: ids[i] !in bad)
      && (r.Some? ==>
            && QueueOk(Queue(0, r.value.rows, r.value.log), drawn + Firsts(receipts, n))
            && Handed(b.rows, r.value, ids, receipts, times, visible, total, n))
  {
    hide QueueOk, LeasedRow, LeaseOne, Handed;
    if n == 0 {
      assert drawn + Firsts(receipts, 0) == drawn;
      HandedNone(b, ids, receipts, times, visible, total);
    } else {
      LeaseBatchOk(b, drawn, ids, receipts, times, bad, visible, total, n - 1);
      var prior := LeaseBatch(b, ids, receipts, times, bad, visible, total, n - 1);
      if prior.Some? {
        NextUntouched(b, prior.value, ids, receipts, times, visible, total, n - 1, drawn);
        if ids[n - 1] !in bad {
          LeaseOneOk(prior.value, drawn + Firsts(receipts, n - 1), ids[n - 1], receipts[n - 1], times[n - 1], visible,
                     total);
          var next := LeaseOne(prior.value, ids[n - 1], receipts[n - 1], times[n - 1], true, visible, total);
          HandedMore(b.rows, prior.value, next.value, ids, receipts, times, visible, total, n - 1);
          FirstsMore(receipts, n - 1);
          assert drawn + Firsts(receipts, n) == drawn + Firsts(receipts, n - 1) + {receipts[n - 1]};
        } else {
          Unreadable(prior.value, ids[n - 1], receipts[n - 1], times[n - 1], visible, total);
        }
      }
    }
  }

  lemma Unreadable(b: Batch, id: Uuid, receipt: string, now: Time, visible: int, total: int)
    requires id in b.rows
    ensures LeaseOne(b, id, receipt, now, false, visible, total).None?
  {
  }

  lemma HandedNone(b: Batch, ids: seq<Uuid>, receipts: seq<string>, times: seq<Time>, visible: int, total: int)
    requires b.items == []
    ensures Handed(b.rows, b, ids, receipts, times, visible, total, 0)
  {
  }

  lemma NextUntouched(b: Batch, mid: Batch, ids: seq<Uuid>, receipts: seq<string>, times: seq<Time>,
                      visible: int, total: int, n: nat, drawn: set<string>)
    requires n < |ids| && n < |receipts| && n < |times| && Handed(b.rows, mid, ids, receipts, times, visible, total, n)
    requires Selected(b.rows, ids, receipts, drawn)
    ensures ids[n] in mid.rows && mid.rows[ids[n]] == b.rows[ids[n]] && mid.rows[ids[n]].status == Available
    ensures receipts[n] !in drawn + Firsts(receipts, n)
  {
    hide HandedTo;
    assert forall i | 0 <= i < n :: ids[..n][i] == ids[i];
  }

  // ---- a whole pull ------------------------------------------------------------------------

  /** A swept row is left alone, or handed out under one of the receipts. */
  ghost predicate Pulled(row: Row, after: Row, receipts: seq<string>) {
    || after == row
    || (row.status == Available
        && exists i, now, visible, total :: 0 <= i < |receipts|
            && after == LeasedRow(row, receipts[i], now, visible, total))
  }

  ghost function Issued(receipts: seq<string>): set<string> {
    set r | r in receipts
  }

  ghost predicate PullInputs(q: Queue, drawn: set<string>, receipts: seq<string>, at: PullTimes) {
    && QueueOk(q, drawn) && |receipts| == 100 && |at.leases| == 100
    && (forall i | 0 <= i < |receipts| :: receipts[i] !in drawn)
    && (forall i, j | 0 <= i < j < |receipts| :: receipts[i] != receipts[j])
  }

  /** What a pull selects once the sweeps are done. */
  function Choice(q: Queue, p: Policy, want: Option<nat>, skipped: set<Uuid>, at: PullTimes): seq<Uuid> {
    var rows := Swept(q.rows, p.maxAttempts, at.reap, at.retire);
    Select(rows, Pool(rows, at.select, skipped), Room(p, want, |Flying(rows)|))
  }

  /** A pull succeeds unless a selected payload is unreadable; it hands out exactly its selection. */
  lemma PullGives(q: Queue, drawn: set<string>, policy: Option<Policy>, want: Option<nat>, visibility: Option<nat>,
                  skipped: set<Uuid>, receipts: seq<string>, bad: set<Uuid>, at: PullTimes)
    requires PullInputs(q, drawn, receipts, at) && Open(policy)
    ensures var p := policy.value; var a := Pull(q, policy, want, visibility, skipped, receipts, bad, at);
      var ids := Choice(q, p, want, skipped, at); var rows := Swept(q.rows, p.maxAttempts, at.reap, at.retire);
      && Selected(rows, ids, receipts, drawn) && |ids| <= 100
      && (a.result.Ok? <==> forall i | 0 <= i < |ids| :: ids[i] !in bad)
      && (a.result.Err? ==> a == Answer(q, Err(Internal)))
      && (a.result.Ok? ==>
            && QueueOk(a.queue, drawn + Issued(receipts))
            && Handed(rows, Batch(a.queue.rows, a.queue.log, a.result.value), ids, receipts, at.leases,
                      Visible(p, visibility), Max(p.maxTotalLease, 1), |ids|))
  {
    hide QueueOk, Handed, LeaseBatch, Moves, Swept, Flying, LeasedRow, AllMove;
    var p := policy.value;
    var rows := Swept(q.rows, p.maxAttempts, at.reap, at.retire);
    var b := Batch(rows, q.log, []);
    SweptOk(q, drawn, p.maxAttempts, at.reap, at.retire, 0);
    var ids := Choice(q, p, want, skipped, at);
    SelectedFrom(rows, at.select, skipped, Room(p, want, |Flying(rows)|), receipts, drawn);
    hide Selected, Pool, Select;
    LeaseBatchOk(b, drawn, ids, receipts, at.leases, bad, Visible(p, visibility), Max(p.maxTotalLease, 1), |ids|);
    var a := Pull(q, policy, want, visibility, skipped, receipts, bad, at);
    if Room(p, want, |Flying(rows)|) == 0 {
      assert drawn + Firsts(receipts, 0) == drawn;
      HandedNone(b, ids, receipts, at.leases, Visible(p, visibility), Max(p.maxTotalLease, 1));
    }
    if a.result.Ok? {
      MoreDrawn(Queue(0, a.queue.rows, a.queue.log), drawn, receipts, |ids|, a.queue.clock);
    }
  }

  lemma SelectedFrom(rows: map<Uuid, Row>, now: Time, skipped: set<Uuid>, limit: nat, receipts: seq<string>,
                     drawn: set<string>)
    requires limit <= 100 == |receipts|
    requires forall i | 0 <= i < |receipts| :: receipts[i] !in drawn
    requires forall i, j | 0 <= i < j < |receipts| :: receipts[i] != receipts[j]
    ensures Pool(rows, now, skipped) <= rows.Keys
    ensures Selected(rows, Select(rows, Pool(rows, now, skipped), limit), receipts, drawn)
    ensures |Select(rows, Pool(rows, now, skipped), limit)| <= 100
  {
  }

  lemma MoreDrawn(q: Queue, drawn: set<string>, receipts: seq<string>, n: nat, clock: Time)
    requires n <= |receipts| && QueueOk(q, drawn + Firsts(receipts, n))
    ensures QueueOk(q.(clock := clock), drawn + Issued(receipts))
  {
    hide RowOk, Logged;
    assert Firsts(receipts, n) <= Issued(receipts);
  }

  lemma PullRows(q: Queue, drawn: set<string>, policy: Option<Policy>, want: Option<nat>, visibility: Option<nat>,
                 skipped: set<Uuid>, receipts: seq<string>, bad: set<Uuid>, at: PullTimes)
    requires PullInputs(q, drawn, receipts, at) && Open(policy)
    requires Pull(q, policy, want, visibility, skipped, receipts, bad, at).result.Ok?
    ensures var a := Pull(q, policy, want, visibility, skipped, receipts, bad, at);
      var rows := Swept(q.rows, policy.value.maxAttempts, at.reap, at.retire);
      && a.queue.rows.Keys == rows.Keys
      && (forall id | id in rows :: Pulled(rows[id], a.queue.rows[id], receipts))
      && |Flying(a.queue.rows)| <= Max(|Flying(rows)|, policy.value.maxInFlight)
  {
    hide QueueOk, Pull, Swept, LeasedRow;
    PullGives(q, drawn, policy, want, visibility, skipped, receipts, bad, at);
    var p := policy.value;
    var rows := Swept(q.rows, p.maxAttempts, at.reap, at.retire);
    var ids := Choice(q, p, want, skipped, at);
    var after := Pull(q, policy, want, visibility, skipped, receipts, bad, at).queue.rows;
    assert ids[..|ids|] == ids;
    forall id | id in rows ensures Pulled(rows[id], after[id], receipts) {
      if id in ids {
        var i :| 0 <= i < |ids| && ids[i] == id;
        assert after[id] == LeasedRow(rows[id], receipts[i], at.leases[i], Visible(p, visibility),
                                      Max(p.maxTotalLease, 1));
      }
    }
    var taken := set id | id in ids;
    Sets.SeqCard(ids, taken);
    forall id | id in Flying(after) ensures id in Flying(rows) + taken { }
    Sets.SubsetCard(Flying(after), Flying(rows) + taken);
  }

  // ---- steps ------------------------------------------------------------------------------

  ghost function StepIssues(s: Step): set<string> {
    if s.Pulling? then Issued(s.receipts) else {}
  }

  /** Rows that exist before and after a step move as described; others are new or were dead letters. */
  ghost predicate StepMoves(before: Queue, after: Queue, issued: set<string>) {
    && (forall id | id in before.rows && id in after.rows :: Moves(before.rows[id], after.rows[id], issued))
    && (forall id | id in before.rows && id !in after.rows :: before.rows[id].status == DeadLetter)
    && (forall id | id in after.rows && id !in before.rows ::
          after.rows[id].status == Available && after.rows[id].lease.None?)
  }

  lemma PulledMoves(row: Row, swept: Row, after: Row, receipts: seq<string>)
    requires Moves(row, swept, {}) && Pulled(swept, after, receipts)
    requires swept.generation == row.generation && swept.attempts == row.attempts
    ensures Moves(row, after, Issued(receipts))
  {
    if after != swept {
      assert row.status != Acked;
    }
  }

  lemma InputsOk(w: World, s: Step)
    requires Inv(w) && Enabled(w, s) && s.Pulling?
    ensures PullInputs(w.queue, w.receipts, s.receipts, s.at)
    ensures |s.receipts| >= 100 && |s.at.leases| >= 100
    ensures AllSpelled(Issued(s.receipts)) && AllSpelled(w.receipts + Issued(s.receipts))
  {
    hide QueueOk, Spelled;
  }

  lemma PullStep(w: World, s: Step)
    requires Inv(w) && Enabled(w, s) && s.Pulling?
    ensures Inv(Apply(w, s)) && StepMoves(w.queue, Apply(w, s).queue, StepIssues(s))
  {
    hide Past, Pull, Pulled, LeasedRow, QueueOk, Enabled, PullInputs, Handed, Selected, Choice, Moves;
    var q := w.queue;
    InputsOk(w, s);
    var a := Pull(q, s.policy, s.want, s.visibility, s.skipped, s.receipts, s.bad, s.at);
    if Open(s.policy) {
      PullGives(q, w.receipts, s.policy, s.want, s.visibility, s.skipped, s.receipts, s.bad, s.at);
      if a.result.Ok? {
        PullRows(q, w.receipts, s.policy, s.want, s.visibility, s.skipped, s.receipts, s.bad, s.at);
        forall id | id in q.rows ensures Moves(q.rows[id], a.queue.rows[id], Issued(s.receipts)) {
          PullMovesRow(w, s, id);
        }
      } else {
        Quiet(w, Issued(s.receipts));
      }
    } else {
      NotOpen(q, s);
      Quiet(w, Issued(s.receipts));
    }
  }

  lemma NotOpen(q: Queue, s: Step)
    requires s.Pulling? && !Open(s.policy) && |s.receipts| >= 100 && |s.at.leases| >= 100
    ensures Pull(q, s.policy, s.want, s.visibility, s.skipped, s.receipts, s.bad, s.at) == Answer(q, Err(Conflict))
  {
  }

  lemma PullMovesRow(w: World, s: Step, id: Uuid)
    requires Inv(w) && s.Pulling? && |s.receipts| >= 100 && |s.at.leases| >= 100 && Open(s.policy) && id in w.queue.rows
    requires var after := Pull(w.queue, s.policy, s.want, s.visibility, s.skipped, s.receipts, s.bad, s.at).queue.rows;
      id in after
          && Pulled(Swept(w.queue.rows, s.policy.value.maxAttempts, s.at.reap, s.at.retire)[id], after[id], s.receipts)
    ensures Moves(w.queue.rows[id],
                  Pull(w.queue, s.policy, s.want, s.visibility, s.skipped, s.receipts, s.bad, s.at).queue.rows[id],
                  Issued(s.receipts))
  {
    hide Pull, Pulled, Logged, Moves;
    var row := w.queue.rows[id];
    SweptRow(id, row, s.policy.value.maxAttempts, s.at.reap, s.at.retire, w.queue.log);
    PulledMoves(row, Retired(Reaped(row, s.policy.value.maxAttempts, s.at.reap), s.at.retire),
                Pull(w.queue, s.policy, s.want, s.visibility, s.skipped, s.receipts, s.bad, s.at).queue.rows[id],
                    s.receipts);
  }

  /** An operation that changes nothing, whatever was drawn. */
  lemma Quiet(w: World, issued: set<string>)
    requires Inv(w) && AllSpelled(issued)
    ensures Inv(w.(receipts := w.receipts + issued)) && StepMoves(w.queue, w.queue, issued)
  {
    hide RowOk, Logged;
  }

  lemma RevivedRow(id: Uuid, row: Row, now: Time, log: set<Entry>)
    requires RowOk(row) && Logged(id, row, log) && row.status == DeadLetter
    ensures RowOk(Revived(row, now)) && Logged(id, Revived(row, now), log) && Moves(row, Revived(row, now), {})
    ensures Revived(row, now).lease.None?
  {
    forall e | e in log && e.delivery == id ensures Past(Revived(row, now), e) { assert Past(row, e); }
  }

  lemma ReplayStep(w: World, ids: seq<Uuid>, now: Time)
    requires Inv(w)
    ensures Inv(Apply(w, Replaying(ids, now))) && StepMoves(w.queue, Apply(w, Replaying(ids, now)).queue, {})
  {
    hide RowOk, Logged, Moves, Revived;
    Quiet(w, {});
    if |ids| <= 100 {
      var q := w.queue;
      var rows := ReplayDead(q, ids, now).queue.rows;
      forall id | id in q.rows ensures RowOk(rows[id]) && Logged(id, rows[id], q.log) && Moves(q.rows[id], rows[id], {})
        ensures rows[id].lease.Some? ==> rows[id] == q.rows[id]
      {
        assert Logged(id, q.rows[id], q.log) && RowOk(q.rows[id]);
        if id in Dead(q.rows, ids) { RevivedRow(id, q.rows[id], now, q.log); }
      }
      assert QueueOk(ReplayDead(q, ids, now).queue, w.receipts);
    }
  }

  lemma DeleteStep(w: World, ids: seq<Uuid>)
    requires Inv(w)
    ensures Inv(Apply(w, Deleting(ids))) && StepMoves(w.queue, Apply(w, Deleting(ids)).queue, {})
  {
    hide Past, RowOk, Moves;
    Quiet(w, {});
    if |ids| <= 100 {
      var q, after := w.queue, DeleteDead(w.queue, ids).queue;
      forall id | id in after.rows ensures Logged(id, after.rows[id], after.log) {
        FewerEntries(id, q.rows[id], q.log, after.log);
      }
      hide Logged;
      MovesNot(q.rows);
    }
  }

  /** A row's log may lose entries of other rows. */
  lemma FewerEntries(id: Uuid, row: Row, log: set<Entry>, fewer: set<Entry>)
    requires Logged(id, row, log) && fewer <= log && forall e | e in log && e.delivery == id :: e in fewer
    ensures Logged(id, row, fewer)
  {
  }

  lemma ArriveStep(w: World, s: Step)
    requires Inv(w) && Enabled(w, s) && s.Arriving?
    ensures Inv(Apply(w, s)) && StepMoves(w.queue, Apply(w, s).queue, {})
  {
    Quiet(w, {});
    var q, after := w.queue, Apply(w, s).queue;
    NewRowLogged(q, w.receipts, s.id, after.rows[s.id]);
    hide Past, Logged, Moves;
  }

  /** A row that is not there yet has no log. */
  lemma NewRowLogged(q: Queue, drawn: set<string>, id: Uuid, row: Row)
    requires QueueOk(q, drawn) && id !in q.rows && row.attempts == 0
    ensures Logged(id, row, q.log)
  {
    hide Logged, RowOk;
    assert forall e | e in q.log :: e.delivery != id;
    LoggedIfNone(id, row, q.log);
  }

  lemma LoggedIfNone(id: Uuid, row: Row, log: set<Entry>)
    requires row.attempts == 0 && forall e | e in log :: e.delivery != id
    ensures Logged(id, row, log)
  {
  }

  lemma BatchStep(w: World, after: Queue)
    requires Inv(w) && QueueOk(after, w.receipts) && AllMove(w.queue.rows, after.rows)
    ensures Inv(w.(queue := after)) && StepMoves(w.queue, after, {})
  {
    hide QueueOk, Moves;
  }

  /** Every operation keeps the invariant and moves rows only as described. */
  lemma StepOk(w: World, s: Step)
    requires Inv(w) && Enabled(w, s)
    ensures Inv(Apply(w, s)) && StepMoves(w.queue, Apply(w, s).queue, StepIssues(s))
  {
    hide QueueOk, StepMoves, AllMove;
    match s {
      case Arriving(_, _, _, _) => ArriveStep(w, s);
      case Pulling(_, _, _, _, _, _, _) => PullStep(w, s);
      case Settling(maxAttempts, items, times) =>
        if |items| <= 100 && maxAttempts.Some? {
          SettleBatchOk(w.queue, w.receipts, maxAttempts.value, items, times, |items|);
          BatchStep(w, Settle(w.queue, maxAttempts, items, times).queue);
        } else {
          Quiet(w, {});
        }
      case Extending(extensions, times) =>
        if |extensions| <= 100 {
          ExtendBatchOk(w.queue, w.receipts, extensions, times, |extensions|);
          BatchStep(w, Extend(w.queue, extensions, times).queue);
        } else {
          Quiet(w, {});
        }
      case Replaying(ids, now) => ReplayStep(w, ids, now);
      case Deleting(ids) => DeleteStep(w, ids);
    }
  }
}
