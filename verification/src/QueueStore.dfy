/**
 The handlers of rust/src/queue_public.rs over one subscription's tables. Each method is a
 transaction: it works on copies and commits them at the end, or returns without committing.
 */
module QueueStores {
  import opened Protocol
  import opened Queues
  import opened QueueRuns

  /** A lease refused in a batch refuses the whole batch. */
  lemma {:induction false} RefusalSticks(b: Batch, ids: seq<Uuid>, receipts: seq<string>, times: seq<Time>,
                                         bad: set<Uuid>, visible: int, total: int, k: nat, n: nat)
    requires k <= n <= |ids| && n <= |receipts| && n <= |times| && forall i | 0 <= i < n :: ids[i] in b.rows
    requires LeaseBatch(b, ids, receipts, times, bad, visible, total, k).None?
    ensures LeaseBatch(b, ids, receipts, times, bad, visible, total, n).None?
    decreases n
  {
    hide LeaseOne;
    if k < n {
      RefusalSticks(b, ids, receipts, times, bad, visible, total, k, n - 1);
    }
  }

  /** A settlement refused in a batch refuses the whole batch. */
  lemma {:induction false} SettleErrorSticks(q: Queue, maxAttempts: int, items: seq<Settlement>, times: seq<Time>,
                                             k: nat, n: nat)
    requires k <= n <= |items| && n <= |times| && SettleBatch(q, maxAttempts, items, times, k).result.Err?
    ensures SettleBatch(q, maxAttempts, items, times, n) == SettleBatch(q, maxAttempts, items, times, k)
    decreases n
  {
    hide SettleOne;
    if k < n {
      SettleErrorSticks(q, maxAttempts, items, times, k, n - 1);
    }
  }

  lemma {:induction false} ExtendErrorSticks(q: Queue, items: seq<Extension>, times: seq<Time>, k: nat, n: nat)
    requires k <= n <= |items| && n <= |times| && ExtendBatch(q, items, times, k).result.Err?
    ensures ExtendBatch(q, items, times, n) == ExtendBatch(q, items, times, k)
    decreases n
  {
    hide ExtendOne;
    if k < n {
      ExtendErrorSticks(q, items, times, k, n - 1);
    }
  }

  /** Lease the chosen rows one after the other; None when one of them is refused. */
  method LeaseAll(start: Batch, chosen: seq<Uuid>, drawn: seq<string>, times: seq<Time>, bad: set<Uuid>,
                  visible: int, total: int) returns (r: Option<Batch>)
    requires |chosen| <= |drawn| && |chosen| <= |times| && forall i | 0 <= i < |chosen| :: chosen[i] in start.rows
    ensures r == LeaseBatch(start, chosen, drawn, times, bad, visible, total, |chosen|)
  {
    hide LeaseOne;
    var b := start;
    var n := 0;
    while n < |chosen|
      invariant 0 <= n <= |chosen|
      invariant LeaseBatch(start, chosen, drawn, times, bad, visible, total, n) == Some(b)
    {
      var next := LeaseOne(b, chosen[n], drawn[n], times[n], chosen[n] !in bad, visible, total);
      if next.None? {
        RefusalSticks(start, chosen, drawn, times, bad, visible, total, n + 1, |chosen|);
        return None;
      }
      b := next.value;
      n := n + 1;
    }
    return Some(b);
  }

  class PullQueue {
    var clock: Time
    var rows: map<Uuid, Row>
    var log: set<Entry>

    /** Every receipt and delivery id drawn so far. */
    ghost var receipts: set<string>
    ghost var ids: set<Uuid>

    constructor (now: Time)
      ensures World() == QueueRuns.World(Queue(now, map[], {}), {}, {}) && Inv(World())
    {
      clock, rows, log := now, map[], {};
      receipts, ids := {}, {};
    }

    ghost function World(): World
      reads this
    {
      QueueRuns.World(Queue(clock, rows, log), receipts, ids)
    }

    /** The row inserted for an accepted event that matches the subscription. */
    method Enqueue(id: Uuid, priority: int, expiresAt: Time, now: Time)
      requires Inv(World()) && Enabled(World(), Arriving(id, priority, expiresAt, now))
      modifies this
      ensures World() == Apply(old(World()), Arriving(id, priority, expiresAt, now)) && Inv(World())
    {
      hide QueueOk;
      StepOk(World(), Arriving(id, priority, expiresAt, now));
      rows := rows[id := Arrived(priority, expiresAt, now)];
      clock := now;
      ids := ids + {id};
    }

    method PullMessages(policy: Option<Policy>, want: Option<nat>, visibility: Option<nat>, skipped: set<Uuid>,
                        drawn: seq<string>, bad: set<Uuid>, at: PullTimes)
      returns (r: Result<seq<Item>, DeliveryError>)
      requires Inv(World()) && Enabled(World(), Pulling(policy, want, visibility, skipped, drawn, bad, at))
      modifies this
      ensures World() == Apply(old(World()), Pulling(policy, want, visibility, skipped, drawn, bad, at)) && Inv(World())
      ensures r == Pull(old(World()).queue, policy, want, visibility, skipped, drawn, bad, at).result
    {
      hide Inv, LeaseBatch, Drawn, Swept, Select, Flying, Pool, StepMoves, Rising;
      StepOk(World(), Pulling(policy, want, visibility, skipped, drawn, bad, at));
      receipts := receipts + (set x | x in drawn);
      if !Open(policy) {
        return Err(Conflict);
      }
      var p := policy.value;
      var swept := Swept(rows, p.maxAttempts, at.reap, at.retire);
      var limit := Room(p, want, |Flying(swept)|);
      if limit == 0 {
        rows, clock := swept, at.retire;
        return Ok([]);
      }
      PoolInRows(swept, at.select, skipped);
      var chosen := Select(swept, Pool(swept, at.select, skipped), limit);
      var visible := Visible(p, visibility);
      var total := Max(p.maxTotalLease, 1);
      var b := LeaseAll(Batch(swept, log, []), chosen, drawn, at.leases, bad, visible, total);
      if b.None? {
        return Err(Internal);
      }
      rows, log, clock := b.value.rows, b.value.log, if chosen == [] then at.select else at.leases[|chosen| - 1];
      return Ok(b.value.items);
    }

    method SettleMessages(maxAttempts: Option<int>, items: seq<Settlement>, times: seq<Time>)
      returns (r: Result<seq<Option<Status>>, DeliveryError>)
      requires Inv(World()) && Enabled(World(), Settling(maxAttempts, items, times))
      modifies this
      ensures World() == Apply(old(World()), Settling(maxAttempts, items, times)) && Inv(World())
      ensures r == Settle(old(World()).queue, maxAttempts, items, times).result
    {
      hide QueueOk, SettleOne, Rising;
      StepOk(World(), Settling(maxAttempts, items, times));
      if |items| > 100 {
        return Err(InvalidInput);
      }
      if maxAttempts.None? {
        return Err(Conflict);
      }
      var q := Queue(clock, rows, log);
      ghost var start := q;
      var results: seq<Option<Status>> := [];
      var n := 0;
      while n < |items|
        invariant 0 <= n <= |items|
        invariant SettleBatch(start, maxAttempts.value, items, times, n) == Answer(q, Ok(results))
      {
        var one := SettleOne(q, maxAttempts.value, items[n], times[n]);
        if one.result.Err? {
          SettleErrorSticks(start, maxAttempts.value, items, times, n + 1, |items|);
          return Err(one.result.error);
        }
        q := one.queue;
        results := results + [one.result.value];
        n := n + 1;
      }
      clock, rows, log := q.clock, q.rows, q.log;
      return Ok(results);
    }

    method ExtendLeases(items: seq<Extension>, times: seq<Time>) returns (r: Result<seq<bool>, DeliveryError>)
      requires Inv(World()) && Enabled(World(), Extending(items, times))
      modifies this
      ensures World() == Apply(old(World()), Extending(items, times)) && Inv(World())
      ensures r == Extend(old(World()).queue, items, times).result
    {
      hide QueueOk, ExtendOne, Rising;
      StepOk(World(), Extending(items, times));
      if |items| > 100 {
        return Err(InvalidInput);
      }
      var q := Queue(clock, rows, log);
      ghost var start := q;
      var results: seq<bool> := [];
      var n := 0;
      while n < |items|
        invariant 0 <= n <= |items|
        invariant ExtendBatch(start, items, times, n) == Answer(q, Ok(results))
      {
        var one := ExtendOne(q, items[n], times[n]);
        if one.result.Err? {
          ExtendErrorSticks(start, items, times, n + 1, |items|);
          return Err(one.result.error);
        }
        q := one.queue;
        results := results + [one.result.value];
        n := n + 1;
      }
      clock, rows, log := q.clock, q.rows, q.log;
      return Ok(results);
    }

    method ReplayDeadLetters(targets: seq<Uuid>, now: Time) returns (r: Result<nat, DeliveryError>)
      requires Inv(World()) && Enabled(World(), Replaying(targets, now))
      modifies this
      ensures World() == Apply(old(World()), Replaying(targets, now)) && Inv(World())
      ensures r == ReplayDead(old(World()).queue, targets, now).result
    {
      hide QueueOk;
      StepOk(World(), Replaying(targets, now));
      if |targets| > 100 {
        return Err(InvalidInput);
      }
      var dead := Dead(rows, targets);
      rows := map id | id in rows :: if id in dead then Revived(rows[id], now) else rows[id];
      clock := now;
      return Ok(|dead|);
    }

    method DeleteDeadLetters(targets: seq<Uuid>) returns (r: Result<nat, DeliveryError>)
      requires Inv(World())
      modifies this
      ensures World() == Apply(old(World()), Deleting(targets)) && Inv(World())
      ensures r == DeleteDead(old(World()).queue, targets).result
    {
      hide QueueOk;
      StepOk(World(), Deleting(targets));
      if |targets| > 100 {
        return Err(InvalidInput);
      }
      var dead := Dead(rows, targets);
      rows := rows - dead;
      log := set e | e in log && e.delivery !in dead;
      return Ok(|dead|);
    }
  }
}
