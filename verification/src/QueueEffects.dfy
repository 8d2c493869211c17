/** What each operation of a pull queue does to the rows, stated on the rows before and after. */
module QueueEffects {
  import opened Protocol
  import opened Queues
  import opened QueueRuns
  import opened QueueTheorems
  import Sets

  // ---- pull ------------------------------------------------------------------------------

  predicate OutAt(row: Row, now: Time) {
    row.status == InFlight && row.lease.Some? && row.lease.value.until <= now
  }

  /**
   A lease that ran out is taken back, or dead-lettered on its last attempt; past retention an
   available row is dead.
   */
  predicate SweptAs(row: Row, after: Row, maxAttempts: int, reap: Time, retire: Time) {
    if OutAt(row, reap) then
      if row.attempts >= maxAttempts then
        after == row.(status := DeadLetter, lease := None, reason := Some("max_attempts_exhausted"))
      else if row.expiresAt <= retire then
        after == row.(status := DeadLetter, lease := None, reason := Some("retention_expired"))
      else after == row.(status := Available, lease := None, reason := Some("visibility_timeout"))
    else if row.status == Available && row.expiresAt <= retire then
      after == row.(status := DeadLetter, reason := Some("retention_expired"))
    else after == row
  }

  /** The row may be handed out: available or taken back, due, and retained. */
  predicate Servable(row: Row, maxAttempts: int, at: PullTimes) {
    && (row.status == Available || (OutAt(row, at.reap) && row.attempts < maxAttempts))
    && row.availableAt <= at.select && row.expiresAt > at.retire && row.expiresAt > at.select
  }

  /** Pull order, column by column. */
  predicate Precedes(a: Row, x: Uuid, b: Row, y: Uuid) {
    && a.priority >= b.priority
    && (a.priority == b.priority ==> a.availableAt <= b.availableAt)
    && (a.priority == b.priority && a.availableAt == b.availableAt ==> a.createdAt <= b.createdAt)
    && (a.priority == b.priority && a.availableAt == b.availableAt && a.createdAt == b.createdAt ==> x < y)
  }

  /** Leases that are still running when the pull looks. */
  function Running(rows: map<Uuid, Row>, now: Time): set<Uuid> {
    set id | id in rows && rows[id].status == InFlight && !OutAt(rows[id], now)
  }

  /** So many items exhaust the request, the batch size, the ceiling of a hundred or the leases allowed in flight. */
  predicate Exhausts(n: nat, want: Option<nat>, policy: Policy, running: nat) {
    || n >= 100 || n >= Max(policy.maxBatch, 1) || running + n >= policy.maxInFlight
    || n >= (if want.Some? then Max(want.value, 1) else 10)
  }

  ghost predicate Among(items: seq<Item>, id: Uuid) {
    exists k :: 0 <= k < |items| && items[k].id == id
  }

  lemma SweptRows(rows: map<Uuid, Row>, maxAttempts: int, reap: Time, retire: Time)
    ensures var swept := Swept(rows, maxAttempts, reap, retire);
      && swept.Keys == rows.Keys && (forall id | id in rows :: SweptAs(rows[id], swept[id], maxAttempts, reap, retire))
  {
  }

  /** The swept row is ready exactly when the row was servable. */
  lemma ServableExactly(row: Row, swept: Row, maxAttempts: int, at: PullTimes)
    requires SweptAs(row, swept, maxAttempts, at.reap, at.retire) && QueueRuns.RowOk(row)
    ensures Ready(swept, at.select) <==> Servable(row, maxAttempts, at)
    ensures swept.status == InFlight <==> row.status == InFlight && !OutAt(row, at.reap)
    ensures swept.priority == row.priority && swept.availableAt == row.availableAt && swept.createdAt == row.createdAt
    ensures swept.generation == row.generation && swept.attempts == row.attempts && swept.expiresAt == row.expiresAt
  {
  }

  lemma SamePool(q: Queue, drawn: set<string>, maxAttempts: int, at: PullTimes, skipped: set<Uuid>)
    requires QueueOk(q, drawn)
    ensures var swept := Swept(q.rows, maxAttempts, at.reap, at.retire);
      && Flying(swept) == Running(q.rows, at.reap)
      && forall id :: id in Pool(swept, at.select, skipped)
                      <==> id in q.rows && id !in skipped && Servable(q.rows[id], maxAttempts, at)
  {
    hide SweptAs, Swept, Ready, Servable, OutAt, Logged;
    SweptRows(q.rows, maxAttempts, at.reap, at.retire);
    forall id | id in q.rows ensures QueueRuns.RowOk(q.rows[id]) { }
    var swept := Swept(q.rows, maxAttempts, at.reap, at.retire);
    forall id | id in q.rows
      ensures Ready(swept[id], at.select) <==> Servable(q.rows[id], maxAttempts, at)
      ensures swept[id].status == InFlight <==> q.rows[id].status == InFlight && !OutAt(q.rows[id], at.reap)
    {
      ServableExactly(q.rows[id], swept[id], maxAttempts, at);
    }
  }

  lemma AheadPrecedes(q: Queue, drawn: set<string>, maxAttempts: int, at: PullTimes, x: Uuid, y: Uuid)
    requires QueueOk(q, drawn) && Ahead(Swept(q.rows, maxAttempts, at.reap, at.retire), x, y)
    ensures x in q.rows && y in q.rows && Precedes(q.rows[x], x, q.rows[y], y)
  {
    SweptRows(q.rows, maxAttempts, at.reap, at.retire);
    var swept := Swept(q.rows, maxAttempts, at.reap, at.retire);
    hide Swept, Logged, SweptAs;
    ServableExactly(q.rows[x], swept[x], maxAttempts, at);
    ServableExactly(q.rows[y], swept[y], maxAttempts, at);
  }

  /** What a successful pull returns: servable rows in pull order, none passed over unless a limit is exhausted. */
  ghost predicate PullAnswer(rows: map<Uuid, Row>, p: Policy, want: Option<nat>, skipped: set<Uuid>, at: PullTimes,
                             items: seq<Item>) {
    && (forall k | 0 <= k < |items| ::
          items[k].id in rows && items[k].id !in skipped && Servable(rows[items[k].id], p.maxAttempts, at))
    && (forall j, k | 0 <= j < k < |items| ::
          items[j].id in rows && items[k].id in rows
          && Precedes(rows[items[j].id], items[j].id, rows[items[k].id], items[k].id))
    && (forall id | id in rows && id !in skipped && Servable(rows[id], p.maxAttempts, at) && !Among(items, id) ::
          && Exhausts(|items|, want, p, |Running(rows, at.reap)|)
          && forall k | 0 <= k < |items| ::
               items[k].id in rows && Precedes(rows[items[k].id], items[k].id, rows[id], id))
  }

  lemma TopAnswers(q: Queue, drawn: set<string>, p: Policy, want: Option<nat>, skipped: set<Uuid>, at: PullTimes,
                   ids: seq<Uuid>, items: seq<Item>)
    requires QueueOk(q, drawn) && Served(items, ids)
    requires var swept := Swept(q.rows, p.maxAttempts, at.reap, at.retire);
      IsTop(swept, Pool(swept, at.select, skipped), Room(p, want, |Flying(swept)|), ids)
    ensures PullAnswer(q.rows, p, want, skipped, at, items)
  {
    hide QueueOk, Swept, Servable, Precedes, Pool, Ahead, Flying, Running, Exhausts;
    var swept := Swept(q.rows, p.maxAttempts, at.reap, at.retire);
    SamePool(q, drawn, p.maxAttempts, at, skipped);
    forall j, k | 0 <= j < k < |items|
      ensures Precedes(q.rows[items[j].id], items[j].id, q.rows[items[k].id], items[k].id)
    {
      AheadPrecedes(q, drawn, p.maxAttempts, at, ids[j], ids[k]);
    }
    forall id | id in q.rows && id !in skipped && Servable(q.rows[id], p.maxAttempts, at) && !Among(items, id)
      ensures Exhausts(|items|, want, p, |Running(q.rows, at.reap)|)
      ensures forall k | 0 <= k < |items| ::
                items[k].id in q.rows && Precedes(q.rows[items[k].id], items[k].id, q.rows[id], id)
    {
      ServedAmong(items, ids, id);
      assert |ids| == Room(p, want, |Flying(swept)|);
      RoomExhausts(p, want, |Flying(swept)|);
      assert AllAhead(swept, ids, id);
      forall k | 0 <= k < |items| ensures Precedes(q.rows[items[k].id], items[k].id, q.rows[id], id) {
        AheadPrecedes(q, drawn, p.maxAttempts, at, ids[k], id);
      }
    }
  }

  lemma ServedAmong(items: seq<Item>, ids: seq<Uuid>, id: Uuid)
    requires Served(items, ids)
    ensures id in ids <==> Among(items, id)
  {
    if id in ids {
      var k :| 0 <= k < |ids| && ids[k] == id;
      assert items[k].id == id;
    }
  }

  lemma RoomExhausts(p: Policy, want: Option<nat>, running: nat)
    ensures Exhausts(Room(p, want, running), want, p, running)
  {
    hide Room;
  }

  /** In every run a pull answers as described, and sweeps every row it does not hand out. */
  lemma PullActs(r: Run, i: nat)
    requires ValidRun(r) && i < |r.steps| && r.steps[i].Pulling?
    requires |r.steps[i].receipts| >= 100 && |r.steps[i].at.leases| >= 100
    ensures var s := r.steps[i]; var q, after := r.worlds[i].queue, r.worlds[i + 1].queue;
      var a := Pull(q, s.policy, s.want, s.visibility, s.skipped, s.receipts, s.bad, s.at).result;
      var open := s.policy.Some? && s.policy.value.enabled && !s.policy.value.paused && !s.policy.value.draining;
      && (!open ==> a == Err(Conflict)) && (a.Err? ==> after == q)
      && (open && a.Err? ==> a == Err(Internal) && s.bad != {})
      && (a.Ok? ==>
            && open && after.rows.Keys == q.rows.Keys
            && PullAnswer(q.rows, s.policy.value, s.want, s.skipped, s.at, a.value)
            && forall id | id in q.rows && !Among(a.value, id) ::
                 SweptAs(q.rows[id], after.rows[id], s.policy.value.maxAttempts, s.at.reap, s.at.retire))
  {
    hide Inv, Enabled, Pull, Swept, Pool, PullInputs, Handed, IsTop, QueueOk, Choice, SweptAs, PullAnswer, Selected;
    RunMoves(r, i);
    var s, w := r.steps[i], r.worlds[i];
    var q := w.queue;
    InputsOk(w, s);
    InvQueue(w);
    var a := Pull(q, s.policy, s.want, s.visibility, s.skipped, s.receipts, s.bad, s.at);
    if Open(s.policy) {
      PullServesFront(r, i);
      PullGives(q, w.receipts, s.policy, s.want, s.visibility, s.skipped, s.receipts, s.bad, s.at);
      if a.result.Ok? {
        PullSweeps(w, s);
        TopAnswers(q, w.receipts, s.policy.value, s.want, s.skipped, s.at,
                   Choice(q, s.policy.value, s.want, s.skipped, s.at), a.result.value);
      }
    } else {
      NotOpen(q, s);
    }
  }

  lemma PullSweeps(w: World, s: Step)
    requires Inv(w) && Enabled(w, s) && s.Pulling? && Open(s.policy) && |s.receipts| >= 100 && |s.at.leases| >= 100
    requires Pull(w.queue, s.policy, s.want, s.visibility, s.skipped, s.receipts, s.bad, s.at).result.Ok?
    ensures var a := Pull(w.queue, s.policy, s.want, s.visibility, s.skipped, s.receipts, s.bad, s.at);
      && a.queue.rows.Keys == w.queue.rows.Keys
      && forall id | id in w.queue.rows && !Among(a.result.value, id) ::
           SweptAs(w.queue.rows[id], a.queue.rows[id], s.policy.value.maxAttempts, s.at.reap, s.at.retire)
  {
    hide Inv, Enabled, Pull, Swept, PullInputs, Handed, QueueOk, Choice, SweptAs, Selected;
    InputsOk(w, s);
    var q, p := w.queue, s.policy.value;
    PullGives(q, w.receipts, s.policy, s.want, s.visibility, s.skipped, s.receipts, s.bad, s.at);
    var a := Pull(q, s.policy, s.want, s.visibility, s.skipped, s.receipts, s.bad, s.at);
    var rows, ids := Swept(q.rows, p.maxAttempts, s.at.reap, s.at.retire), Choice(q, p, s.want, s.skipped, s.at);
    var b := Batch(a.queue.rows, a.queue.log, a.result.value);
    SweptRows(q.rows, p.maxAttempts, s.at.reap, s.at.retire);
    HandedServes(rows, b, ids, s.receipts, s.at.leases, Visible(p, s.visibility), Max(p.maxTotalLease, 1));
    HandedKeys(rows, b, ids, s.receipts, s.at.leases, Visible(p, s.visibility), Max(p.maxTotalLease, 1));
    forall id | id in q.rows && !Among(a.result.value, id) ensures a.queue.rows[id] == rows[id] {
      ServedAmong(a.result.value, ids, id);
      OthersKept(rows, b, ids, s.receipts, s.at.leases, Visible(p, s.visibility), Max(p.maxTotalLease, 1), id);
    }
  }

  lemma HandedKeys(rows: map<Uuid, Row>, b: Batch, ids: seq<Uuid>, receipts: seq<string>, times: seq<Time>,
                   visible: int, total: int)
    requires |ids| <= |receipts| && |ids| <= |times| && Handed(rows, b, ids, receipts, times, visible, total, |ids|)
    ensures b.rows.Keys == rows.Keys
  {
  }

  // ---- settle and extend: what is refused -------------------------------------------------------

  /** A settlement request is refused exactly when it is too long, the subscription is gone, or an item is malformed. */
  lemma SettleRefusedExactly(r: Run, i: nat)
    requires ValidRun(r) && i < |r.steps| && r.steps[i].Settling? && |r.steps[i].items| <= |r.steps[i].times|
    ensures var s := r.steps[i]; var a := Settle(r.worlds[i].queue, s.maxAttempts, s.items, s.times).result;
      && (a.Err? <==> || |s.items| > 100 || s.maxAttempts.None?
                      || exists k :: 0 <= k < |s.items| && Malformed(s.items[k]))
      && (a.Err? ==> r.worlds[i + 1].queue == r.worlds[i].queue)
  {
    hide QueueOk, AllMove, Spent, Inv, StepMoves;
    RunMoves(r, i);
    InvQueue(r.worlds[i]);
    var s, w := r.steps[i], r.worlds[i];
    if |s.items| <= 100 && s.maxAttempts.Some? {
      SettleBatchOk(w.queue, w.receipts, s.maxAttempts.value, s.items, s.times, |s.items|);
      forall k | 0 <= k < |s.items| ensures WellFormed(s.items[k]) <==> !Malformed(s.items[k]) { }
      hide Malformed, WellFormed;
    }
  }

  predicate Malformed(item: Settlement) {
    || item.receipt == "" || Utf8Length(item.receipt) > 512
    || (item.disposition != "acked" && item.disposition != "available" && item.disposition != "dead_letter")
  }

  /** An extension request is refused exactly when it is too long or an item is malformed. */
  lemma ExtendRefusedExactly(r: Run, i: nat)
    requires ValidRun(r) && i < |r.steps| && r.steps[i].Extending? && |r.steps[i].extensions| <= |r.steps[i].times|
    ensures var s := r.steps[i]; var a := Extend(r.worlds[i].queue, s.extensions, s.times).result;
      && (a.Err? <==> || |s.extensions| > 100
                      || exists k :: 0 <= k < |s.extensions| && Unusable(s.extensions[k]))
      && (a.Err? ==> r.worlds[i + 1].queue == r.worlds[i].queue)
  {
    hide QueueOk, AllMove, Inv, StepMoves;
    RunMoves(r, i);
    InvQueue(r.worlds[i]);
    var s, w := r.steps[i], r.worlds[i];
    if |s.extensions| <= 100 {
      ExtendBatchOk(w.queue, w.receipts, s.extensions, s.times, |s.extensions|);
      forall k | 0 <= k < |s.extensions| ensures Extensible(s.extensions[k]) <==> !Unusable(s.extensions[k]) { }
      hide Unusable, Extensible;
    }
  }

  predicate Unusable(item: Extension) {
    item.receipt == "" || item.seconds == 0 || item.seconds > 3600
  }

  // ---- arrivals, replays, deletions ----------------------------------------------------------------

  /** From `now` until its retention ends the row can be handed out, for the first time in its generation. */
  ghost predicate Offered(row: Row, now: Time) {
    && row.attempts == 0 && row.lease.None? && row.status == Available && row.reason.None?
    && forall policy: Policy, at: PullTimes | at.retire <= at.select ::
         Servable(row, policy.maxAttempts, at) <==> now <= at.select < row.expiresAt
  }

  /** Every other row is as it was. */
  ghost predicate OthersSame(before: Queue, after: Queue, ids: set<Uuid>) {
    forall id | id in before.rows && id !in ids :: id in after.rows && after.rows[id] == before.rows[id]
  }

  /** An arriving delivery is offered at once, in its first generation. */
  lemma ArriveActs(r: Run, i: nat)
    requires ValidRun(r) && i < |r.steps| && r.steps[i].Arriving?
    ensures var s := r.steps[i]; var before, after := r.worlds[i].queue, r.worlds[i + 1].queue;
      && s.id !in before.rows && after.rows.Keys == before.rows.Keys + {s.id} && OthersSame(before, after, {s.id})
      && var row := after.rows[s.id];
      && Offered(row, s.now) && row.generation == 1 && row.priority == s.priority && row.createdAt == s.now
      && row.expiresAt == s.expiresAt
  {
    hide QueueOk;
    RunMoves(r, i);
  }

  /** The listed dead letters. */
  function DeadAmong(q: Queue, ids: seq<Uuid>): set<Uuid> {
    set id | id in ids && id in q.rows && q.rows[id].status == DeadLetter
  }

  /** A replay offers exactly the listed dead letters again, in their next generation; every other row is as it was. */
  lemma ReplayActs(r: Run, i: nat)
    requires ValidRun(r) && i < |r.steps| && r.steps[i].Replaying?
    ensures var s := r.steps[i]; var before, after := r.worlds[i].queue, r.worlds[i + 1].queue;
      var a := ReplayDead(before, s.ids, s.now).result;
      if |s.ids| > 100 then after == before && a == Err(InvalidInput)
      else
        && a == Ok(|DeadAmong(before, s.ids)|)
        && after.rows.Keys == before.rows.Keys && after.log == before.log
        && forall id | id in before.rows ::
             if id in s.ids && before.rows[id].status == DeadLetter then
               && Offered(after.rows[id], s.now) && after.rows[id].generation == before.rows[id].generation + 1
               && after.rows[id].expiresAt == before.rows[id].expiresAt
               && after.rows[id].priority == before.rows[id].priority
             else after.rows[id] == before.rows[id]
  {
    hide QueueOk;
    RunMoves(r, i);
    assert DeadAmong(r.worlds[i].queue, r.steps[i].ids) == Dead(r.worlds[i].queue.rows, r.steps[i].ids);
  }

  /** A deletion removes exactly the listed dead letters and their log. */
  lemma DeleteActs(r: Run, i: nat)
    requires ValidRun(r) && i < |r.steps| && r.steps[i].Deleting?
    ensures var s := r.steps[i]; var before, after := r.worlds[i].queue, r.worlds[i + 1].queue;
      var a := DeleteDead(before, s.ids).result;
      if |s.ids| > 100 then after == before && a == Err(InvalidInput)
      else
        && a == Ok(|DeadAmong(before, s.ids)|)
        && (forall id :: id in after.rows
                         <==> id in before.rows && !(id in s.ids && before.rows[id].status == DeadLetter))
        && (forall id | id in after.rows :: after.rows[id] == before.rows[id])
        && (forall e :: e in after.log <==> e in before.log && e.delivery in after.rows)
  {
    hide Logged, QueueRuns.RowOk, ReceiptsOk;
    RunMoves(r, i);
    assert DeadAmong(r.worlds[i].queue, r.steps[i].ids) == Dead(r.worlds[i].queue.rows, r.steps[i].ids);
    InvQueue(r.worlds[i]);
    assert forall e | e in r.worlds[i].queue.log :: e.delivery in r.worlds[i].queue.rows;
  }
}
