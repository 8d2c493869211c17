/** The promises of pull queues, for every run. */
module QueueTheorems {
  import opened Protocol
  import opened Queues
  import opened QueueRuns
  import Sets

  datatype Run = Run(worlds: seq<World>, steps: seq<Step>)

  ghost predicate Follows(r: Run, i: nat)
    requires |r.worlds| == |r.steps| + 1 && i < |r.steps|
  {
    Enabled(r.worlds[i], r.steps[i]) && r.worlds[i + 1] == Apply(r.worlds[i], r.steps[i])
  }

  ghost predicate ValidRun(r: Run) {
    && |r.worlds| == |r.steps| + 1
    && r.worlds[0].queue.rows == map[] && r.worlds[0].queue.log == {} && r.worlds[0].receipts == {}
    && forall i | 0 <= i < |r.steps| :: Follows(r, i)
  }

  lemma {:induction false} RunInv(r: Run, i: nat)
    requires ValidRun(r) && i < |r.worlds|
    ensures Inv(r.worlds[i])
  {
    if i > 0 {
      RunInv(r, i - 1);
      assert Follows(r, i - 1);
      StepOk(r.worlds[i - 1], r.steps[i - 1]);
    }
  }

  lemma RunMoves(r: Run, i: nat)
    requires ValidRun(r) && i < |r.steps|
    ensures Inv(r.worlds[i]) && Inv(r.worlds[i + 1])
    ensures StepMoves(r.worlds[i].queue, r.worlds[i + 1].queue, StepIssues(r.steps[i]))
    ensures Enabled(r.worlds[i], r.steps[i]) && r.worlds[i + 1] == Apply(r.worlds[i], r.steps[i])
  {
    RunInv(r, i);
    assert Follows(r, i);
    StepOk(r.worlds[i], r.steps[i]);
  }

  // ---- receipts ------------------------------------------------------------------------

  /** Drawn, and on no row: such a receipt is dead. */
  ghost predicate Void(w: World, receipt: string) {
    receipt in w.receipts && !Attached(w.queue.rows, receipt)
  }

  lemma {:induction false} VoidForever(r: Run, i: nat, j: nat, receipt: string)
    requires ValidRun(r) && i <= j < |r.worlds| && Void(r.worlds[i], receipt)
    ensures Void(r.worlds[j], receipt)
    decreases j - i
  {
    if i < j {
      RunMoves(r, i);
      VoidStep(r.worlds[i], r.steps[i], receipt);
      VoidForever(r, i + 1, j, receipt);
    }
  }

  lemma VoidStep(w: World, s: Step, receipt: string)
    requires Enabled(w, s) && Void(w, receipt)
    requires StepMoves(w.queue, Apply(w, s).queue, StepIssues(s))
    ensures Void(Apply(w, s), receipt)
  {
    hide Pull, Settle, Extend, ReplayDead, DeleteDead;
    var rows, after := w.queue.rows, Apply(w, s).queue.rows;
    assert receipt !in StepIssues(s);
    forall id | id in after && after[id].lease.Some? ensures after[id].lease.value.receipt != receipt {
      if id in rows { assert Moves(rows[id], after[id], StepIssues(s)); }
    }
  }

  /** The row still carries this very lease, possibly extended. */
  ghost predicate StillLeased(q: Queue, id: Uuid, row: Row) {
    id in q.rows && SameLease(row, q.rows[id]) && q.rows[id].expiresAt == row.expiresAt
  }

  lemma FateStep(w: World, s: Step, id: Uuid)
    requires Inv(w) && Enabled(w, s) && id in w.queue.rows && w.queue.rows[id].lease.Some?
    requires StepMoves(w.queue, Apply(w, s).queue, StepIssues(s))
    ensures StillLeased(Apply(w, s).queue, id, w.queue.rows[id])
        || Void(Apply(w, s), w.queue.rows[id].lease.value.receipt)
  {
    hide Pull, Settle, Extend, ReplayDead, DeleteDead, Logged;
    var rows, after := w.queue.rows, Apply(w, s).queue.rows;
    var receipt := rows[id].lease.value.receipt;
    assert receipt in w.receipts && receipt !in StepIssues(s);
    forall x | x in after && after[x].lease.Some? && after[x].lease.value.receipt == receipt
      ensures x == id && StillLeased(Apply(w, s).queue, id, rows[id])
    {
      assert x in rows && Moves(rows[x], after[x], StepIssues(s));
    }
  }

  /** What becomes of a receipt: its row carries that very lease, or the receipt is dead for good. */
  lemma {:induction false} ReceiptFate(r: Run, i: nat, j: nat, id: Uuid)
    requires ValidRun(r) && i <= j < |r.worlds|
    requires id in r.worlds[i].queue.rows && r.worlds[i].queue.rows[id].lease.Some?
    ensures var row := r.worlds[i].queue.rows[id];
      StillLeased(r.worlds[j].queue, id, row) || Void(r.worlds[j], row.lease.value.receipt)
    decreases j
  {
    hide Inv, Void, Enabled, Apply, StepMoves;
    if i < j {
      ReceiptFate(r, i, j - 1, id);
      RunMoves(r, j - 1);
      var row, w := r.worlds[i].queue.rows[id], r.worlds[j - 1];
      if StillLeased(w.queue, id, row) {
        FateStep(w, r.steps[j - 1], id);
      } else {
        VoidStep(w, r.steps[j - 1], row.lease.value.receipt);
      }
    }
  }

  /** A receipt from before a new lease, a replay or a deletion is always answered as invalid. */
  lemma StaleReceiptRefused(r: Run, i: nat, j: nat, id: Uuid, item: Settlement, extension: Extension, maxAttempts: int,
                            now: Time)
    requires ValidRun(r) && i <= j < |r.worlds|
    requires id in r.worlds[i].queue.rows && r.worlds[i].queue.rows[id].lease.Some?
    requires !StillLeased(r.worlds[j].queue, id, r.worlds[i].queue.rows[id])
    requires WellFormed(item) && item.receipt == r.worlds[i].queue.rows[id].lease.value.receipt
    requires Extensible(extension) && extension.receipt == item.receipt
    ensures SettleOne(r.worlds[j].queue, maxAttempts, item, now).result == Ok(None)
    ensures ExtendOne(r.worlds[j].queue, extension, now).result == Ok(false)
  {
    ReceiptFate(r, i, j, id);
    assert Holders(r.worlds[j].queue.rows, item.receipt, now) == {};
  }

  /** A replay starts over: a later generation, and every receipt handed out before is refused from then on. */
  lemma ReplayStartsOver(r: Run, k: nat, i: nat, j: nat, id: Uuid)
    requires ValidRun(r) && k <= i < j < |r.worlds| && r.steps[i].Replaying? && |r.steps[i].ids| <= 100
    requires id in r.steps[i].ids && id in r.worlds[i].queue.rows && r.worlds[i].queue.rows[id].status == DeadLetter
    requires id in r.worlds[k].queue.rows && r.worlds[k].queue.rows[id].lease.Some?
    ensures Void(r.worlds[j], r.worlds[k].queue.rows[id].lease.value.receipt)
    ensures (forall l | i < l <= j :: id in r.worlds[l].queue.rows) ==>
      r.worlds[j].queue.rows[id].generation > r.worlds[i].queue.rows[id].generation
  {
    hide Void, Enabled, StepMoves;
    RunMoves(r, i);
    ReceiptFate(r, k, i, id);
    assert RowOk(r.worlds[i].queue.rows[id]);
    VoidForever(r, i, j, r.worlds[k].queue.rows[id].lease.value.receipt);
    if forall l | i < l <= j :: id in r.worlds[l].queue.rows {
      AttemptsAdvance(r, i + 1, j, id);
    }
  }

  /** The answer a settlement batch gave to its item `k`. */
  ghost predicate Accepts(w: World, s: Step, k: nat, receipt: string) {
    && s.Settling? && k < |s.items| <= |s.times| && s.items[k].receipt == receipt
    && var a := Settle(w.queue, s.maxAttempts, s.items, s.times).result;
    && a.Ok? && k < |a.value| && a.value[k].Some?
  }

  lemma VoidRefused(q: Queue, maxAttempts: int, item: Settlement, now: Time)
    requires !Attached(q.rows, item.receipt)
    ensures SettleOne(q, maxAttempts, item, now).result.Ok? ==> SettleOne(q, maxAttempts, item, now).result.value.None?
  {
    assert Holders(q.rows, item.receipt, now) == {};
  }

  /** Answers and queues of a batch agree with those of its prefixes. */
  lemma {:induction false} BatchPrefix(q: Queue, maxAttempts: int, items: seq<Settlement>, times: seq<Time>, k: nat,
                                       n: nat)
    requires k < n <= |items| && n <= |times| && SettleBatch(q, maxAttempts, items, times, n).result.Ok?
    ensures var prior := SettleBatch(q, maxAttempts, items, times, k);
      var a := SettleBatch(q, maxAttempts, items, times, n).result.value;
      && prior.result.Ok? && |prior.result.value| == k && |a| == n && prior.result.value == a[..k]
      && SettleOne(prior.queue, maxAttempts, items[k], times[k]).result == Ok(a[k])
    decreases n
  {
    hide SettleOne;
    if k < n - 1 {
      BatchPrefix(q, maxAttempts, items, times, k, n - 1);
    } else if k > 0 {
      BatchPrefix(q, maxAttempts, items, times, k - 1, k);
    }
  }

  /** An item is answered like a settlement of its own on the queue its predecessors left. */
  lemma AcceptedAlone(w: World, s: Step, k: nat, receipt: string)
    requires Inv(w) && Accepts(w, s, k, receipt)
    ensures s.maxAttempts.Some? && |s.items| <= 100
    ensures var prior := SettleBatch(w.queue, s.maxAttempts.value, s.items, s.times, k).queue;
      && QueueOk(prior, w.receipts) && AllMove(w.queue.rows, prior.rows)
      && |Holders(prior.rows, receipt, s.times[k])| > 0
  {
    hide QueueOk, AllMove, WellFormed, Spent;
    BatchPrefix(w.queue, s.maxAttempts.value, s.items, s.times, k, |s.items|);
    SettleBatchOk(w.queue, w.receipts, s.maxAttempts.value, s.items, s.times, k);
  }

  /** An accepted receipt was on a row, and is on none afterwards. */
  lemma AcceptVoids(w: World, s: Step, k: nat, receipt: string)
    requires Inv(w) && Enabled(w, s) && Accepts(w, s, k, receipt)
    ensures Attached(w.queue.rows, receipt) && Void(Apply(w, s), receipt)
  {
    hide SettleBatch, RowOk, Logged;
    AcceptedAlone(w, s, k, receipt);
    var prior := SettleBatch(w.queue, s.maxAttempts.value, s.items, s.times, k).queue;
    HolderFacts(prior, w.receipts, receipt, s.times[k]);
    var id := First(prior.rows, Holders(prior.rows, receipt, s.times[k]));
    assert Moves(w.queue.rows[id], prior.rows[id], {});
    SettleBatchOk(w.queue, w.receipts, s.maxAttempts.value, s.items, s.times, |s.items|);
  }

  /** A receipt settles at most once in a batch. */
  lemma OncePerBatch(w: World, s: Step, i: nat, k: nat, receipt: string)
    requires Inv(w) && Enabled(w, s) && i < k && Accepts(w, s, i, receipt)
    ensures !Accepts(w, s, k, receipt)
  {
    hide QueueOk, AllMove, WellFormed;
    AcceptedAlone(w, s, i, receipt);
    if k < |s.items| && s.items[k].receipt == receipt {
      BatchPrefix(w.queue, s.maxAttempts.value, s.items, s.times, k, |s.items|);
      SettleBatchOk(w.queue, w.receipts, s.maxAttempts.value, s.items, s.times, k);
      var prior := SettleBatch(w.queue, s.maxAttempts.value, s.items, s.times, k);
      assert prior.result.value[i].Some? && !Attached(prior.queue.rows, receipt);
      VoidRefused(prior.queue, s.maxAttempts.value, s.items[k], s.times[k]);
    }
  }

  /** A receipt settles at most once, ever. */
  lemma SettlesOnce(r: Run, i: nat, j: nat, k: nat, l: nat, receipt: string)
    requires ValidRun(r) && i < j < |r.steps| && Accepts(r.worlds[i], r.steps[i], k, receipt)
    ensures !Accepts(r.worlds[j], r.steps[j], l, receipt)
  {
    hide Accepts, Attached, Inv;
    RunMoves(r, i);
    RunMoves(r, j);
    AcceptVoids(r.worlds[i], r.steps[i], k, receipt);
    VoidForever(r, i + 1, j, receipt);
    if Accepts(r.worlds[j], r.steps[j], l, receipt) {
      AcceptVoids(r.worlds[j], r.steps[j], l, receipt);
    }
  }

  /** The item describes the row's lease, which may have been extended since. */
  predicate Describes(item: Item, id: Uuid, row: Row) {
    && row.lease.Some? && item.id == id && item.receipt == row.lease.value.receipt
    && item.attempt == row.attempts && item.generation == row.generation && item.until <= row.lease.value.until
  }

  /** The pull at this step handed out the lease that the row carries. */
  ghost predicate Hands(w: World, s: Step, id: Uuid, row: Row) {
    && s.Pulling? && |s.receipts| >= 100 && |s.at.leases| >= 100 && Open(s.policy) && row.lease.Some?
    && row.lease.value.cap == row.lease.value.startedAt + Max(s.policy.value.maxTotalLease, 1) * SECOND
    && var a := Pull(w.queue, s.policy, s.want, s.visibility, s.skipped, s.receipts, s.bad, s.at).result;
    && a.Ok? && exists k :: 0 <= k < |a.value| && Describes(a.value[k], id, row)
  }

  lemma HandedIsItem(rows: map<Uuid, Row>, b: Batch, ids: seq<Uuid>, receipts: seq<string>, times: seq<Time>,
                     visible: int, total: int, k: nat)
    requires k < |ids| <= |receipts| && |ids| <= |times| && Handed(rows, b, ids, receipts, times, visible, total, |ids|)
    ensures ids[k] in b.rows && Describes(b.items[k], ids[k], b.rows[ids[k]])
    ensures b.rows[ids[k]].lease.value.cap == b.rows[ids[k]].lease.value.startedAt + total * SECOND
  {
    assert HandedTo(rows[ids[k]], b.rows[ids[k]], b.items[k], ids[k], receipts[k], times[k], visible, total);
  }

  /** A lease under a receipt drawn by this very pull is one of the items it returned. */
  lemma NewLeaseIsItem(w: World, s: Step, id: Uuid)
    requires Inv(w) && Enabled(w, s) && s.Pulling? && id in w.queue.rows && id in Apply(w, s).queue.rows
    requires NewLease(w.queue.rows[id], Apply(w, s).queue.rows[id], Issued(s.receipts))
    ensures Hands(w, s, id, Apply(w, s).queue.rows[id])
  {
    hide Inv, Pull, Swept, Choice, Issued, Describes, Handed, Selected, PullInputs, Enabled, QueueOk;
    var q := w.queue;
    UnissuedHere(w, s, id);
    InputsOk(w, s);
    if !Open(s.policy) {
      NotOpen(q, s);
    } else {
      PullGives(q, w.receipts, s.policy, s.want, s.visibility, s.skipped, s.receipts, s.bad, s.at);
      var a := Pull(q, s.policy, s.want, s.visibility, s.skipped, s.receipts, s.bad, s.at);
      if a.result.Ok? {
        var rows := Swept(q.rows, s.policy.value.maxAttempts, s.at.reap, s.at.retire);
        var ids := Choice(q, s.policy.value, s.want, s.skipped, s.at);
        var b := Batch(a.queue.rows, a.queue.log, a.result.value);
        var visible, total := Visible(s.policy.value, s.visibility), Max(s.policy.value.maxTotalLease, 1);
        SweptHere(w, s, id);
        OthersKept(rows, b, ids, s.receipts, s.at.leases, visible, total, id);
        var k :| 0 <= k < |ids| && ids[k] == id;
        HandedIsItem(rows, b, ids, s.receipts, s.at.leases, visible, total, k);
        assert Describes(a.result.value[k], id, a.queue.rows[id]);
      }
    }
  }

  lemma OthersKept(rows: map<Uuid, Row>, b: Batch, ids: seq<Uuid>, receipts: seq<string>, times: seq<Time>,
                   visible: int, total: int, id: Uuid)
    requires |ids| <= |receipts| && |ids| <= |times| && Handed(rows, b, ids, receipts, times, visible, total, |ids|)
    requires id in rows
    ensures |b.items| == |ids| && (id !in ids ==> id in b.rows && b.rows[id] == rows[id])
  {
    assert ids[..|ids|] == ids;
  }

  /** No lease held before a pull is under one of its receipts. */
  lemma UnissuedHere(w: World, s: Step, id: Uuid)
    requires Inv(w) && Enabled(w, s) && s.Pulling? && id in w.queue.rows
    ensures w.queue.rows[id].lease.Some? ==> w.queue.rows[id].lease.value.receipt !in Issued(s.receipts)
  {
  }

  lemma SweptHere(w: World, s: Step, id: Uuid)
    requires Inv(w) && Enabled(w, s) && s.Pulling? && id in w.queue.rows && Open(s.policy)
    ensures var rows := Swept(w.queue.rows, s.policy.value.maxAttempts, s.at.reap, s.at.retire);
      id in rows && (rows[id].lease.Some? ==> rows[id].lease.value.receipt !in Issued(s.receipts))
  {
    hide QueueOk;
    UnissuedHere(w, s, id);
  }

  /**
   Whatever lease a row carries was handed out by an earlier pull, for this row and this very
   attempt, and since then has only been extended.
   */
  lemma {:induction false} LeaseOrigin(r: Run, j: nat, id: Uuid) returns (i: nat)
    requires ValidRun(r) && j < |r.worlds| && id in r.worlds[j].queue.rows && r.worlds[j].queue.rows[id].lease.Some?
    ensures i < j && Hands(r.worlds[i], r.steps[i], id, r.worlds[j].queue.rows[id])
    ensures forall k | i < k <= j ::
              id in r.worlds[k].queue.rows && SameLease(r.worlds[k].queue.rows[id], r.worlds[j].queue.rows[id])
    decreases j
  {
    hide Inv, Pull, Enabled, Apply;
    RunMoves(r, j - 1);
    var before, after := r.worlds[j - 1].queue.rows, r.worlds[j].queue.rows;
    assert Moves(before[id], after[id], StepIssues(r.steps[j - 1]));
    if SameLease(before[id], after[id]) {
      i := LeaseOrigin(r, j - 1, id);
      forall k | i < k <= j ensures id in r.worlds[k].queue.rows && SameLease(r.worlds[k].queue.rows[id], after[id]) {
        if k < j { assert SameLease(r.worlds[k].queue.rows[id], before[id]); }
      }
    } else {
      i := j - 1;
      NewLeaseIsItem(r.worlds[i], r.steps[i], id);
    }
  }

  /** The total lease of an attempt never exceeds the policy it was handed out under, whatever extensions follow. */
  lemma LeaseWithinTotal(r: Run, j: nat, id: Uuid) returns (i: nat)
    requires ValidRun(r) && j < |r.worlds| && id in r.worlds[j].queue.rows && r.worlds[j].queue.rows[id].lease.Some?
    ensures i < j && r.steps[i].Pulling? && r.steps[i].policy.Some?
    ensures var lease := r.worlds[j].queue.rows[id].lease.value;
      lease.until <= lease.startedAt + Max(r.steps[i].policy.value.maxTotalLease, 1) * SECOND
  {
    hide Pull;
    i := LeaseOrigin(r, j, id);
    RunInv(r, j);
    assert RowOk(r.worlds[j].queue.rows[id]);
  }

  /** The row is leased under the receipt and the lease has not run out. */
  predicate LiveUnder(row: Row, receipt: string, now: Time) {
    row.lease.Some? && row.lease.value.receipt == receipt && row.lease.value.until > now
  }

  /** What settling does to the row of its receipt: it keeps its number, loses its lease, and waits out the delay. */
  ghost predicate SettledAs(row: Row, after: Row, item: Settlement, maxAttempts: int, now: Time) {
    && after.generation == row.generation && after.attempts == row.attempts && after.lease.None?
    && (after.status == Acked <==> item.disposition == "acked")
    && (after.status == Available <==> item.disposition == "available" && row.attempts < maxAttempts)
    && (after.status == Acked || after.status == Available || after.status == DeadLetter)
    && after.priority == row.priority && after.createdAt == row.createdAt && after.expiresAt == row.expiresAt
    && (after.status == Available ==> after.availableAt == now + Postponed(item) * SECOND)
    && after.reason == if item.reason == Some("") then None else item.reason
  }

  /** The asked delay in seconds, at most a day. */
  function Postponed(item: Settlement): nat {
    if item.delay.None? then 0 else if item.delay.value > 86_400 then 86_400 else item.delay.value
  }

  lemma HoldersLive(q: Queue, drawn: set<string>, receipt: string, now: Time)
    requires QueueOk(q, drawn)
    ensures forall id | id in q.rows :: id in Holders(q.rows, receipt, now) <==> LiveUnder(q.rows[id], receipt, now)
  {
    forall id | id in q.rows ensures id in Holders(q.rows, receipt, now) <==> LiveUnder(q.rows[id], receipt, now) {
      assert RowOk(q.rows[id]);
    }
  }

  /** A well-formed settlement is accepted exactly when its receipt is live, and touches only that delivery. */
  lemma SettleActs(q: Queue, drawn: set<string>, maxAttempts: int, item: Settlement, now: Time)
    requires QueueOk(q, drawn) && WellFormed(item)
    ensures var a := SettleOne(q, maxAttempts, item, now);
      && a.result.Ok? && a.queue.rows.Keys == q.rows.Keys
      && (a.result.value.Some? <==> exists id :: id in q.rows && LiveUnder(q.rows[id], item.receipt, now))
      && (forall id | id in q.rows && LiveUnder(q.rows[id], item.receipt, now) ::
            SettledAs(q.rows[id], a.queue.rows[id], item, maxAttempts, now)
            && a.result.value == Some(a.queue.rows[id].status))
      && (forall id | id in q.rows && !LiveUnder(q.rows[id], item.receipt, now) :: a.queue.rows[id] == q.rows[id])
  {
    hide QueueOk, Moves, Logged, Attached, WellFormed;
    SettleOneOk(q, drawn, maxAttempts, item, now);
    HoldersLive(q, drawn, item.receipt, now);
    if |Holders(q.rows, item.receipt, now)| > 0 {
      HolderFacts(q, drawn, item.receipt, now);
    }
  }

  /**
   In every run, each item of an accepted batch is answered as a settlement of its own on a
   consistent queue, the one its predecessors left, with which `SettleActs` says what it does.
   */
  lemma BatchItemActs(r: Run, i: nat, k: nat)
    requires ValidRun(r) && i < |r.steps| && r.steps[i].Settling?
    requires k < |r.steps[i].items| <= |r.steps[i].times|
    requires Settle(r.worlds[i].queue, r.steps[i].maxAttempts, r.steps[i].items, r.steps[i].times).result.Ok?
    ensures var s := r.steps[i]; var q := r.worlds[i].queue;
      && s.maxAttempts.Some? && |s.items| == |s.times|
      && var a := Settle(q, s.maxAttempts, s.items, s.times).result.value;
      var prior := SettleBatch(q, s.maxAttempts.value, s.items, s.times, k).queue;
      && |a| == |s.items| && QueueOk(prior, r.worlds[i].receipts) && WellFormed(s.items[k])
      && SettleOne(prior, s.maxAttempts.value, s.items[k], s.times[k]).result == Ok(a[k])
  {
    hide QueueOk, Moves, WellFormed, Spent, AllMove;
    RunMoves(r, i);
    var s, w := r.steps[i], r.worlds[i];
    InvQueue(w);
    hide Inv, StepMoves;
    SettleBatchOk(w.queue, w.receipts, s.maxAttempts.value, s.items, s.times, k);
    SettleBatchOk(w.queue, w.receipts, s.maxAttempts.value, s.items, s.times, |s.items|);
    BatchPrefix(w.queue, s.maxAttempts.value, s.items, s.times, k, |s.items|);
  }

  /** An extension acts exactly on a live receipt: that lease ends the asked seconds later, or at its cap. */
  lemma ExtendActs(q: Queue, drawn: set<string>, item: Extension, now: Time)
    requires QueueOk(q, drawn) && Extensible(item)
    ensures var a := ExtendOne(q, item, now);
      && a.queue.rows.Keys == q.rows.Keys && a.queue.log == q.log
      && (a.result == Ok(true) <==> exists id :: id in q.rows && LiveUnder(q.rows[id], item.receipt, now))
      && (forall id | id in q.rows && LiveUnder(q.rows[id], item.receipt, now) ::
            ExtendedBy(q.rows[id], a.queue.rows[id], item.seconds * SECOND))
      && (forall id | id in q.rows && !LiveUnder(q.rows[id], item.receipt, now) :: a.queue.rows[id] == q.rows[id])
  {
    hide QueueOk, Logged;
    HoldersLive(q, drawn, item.receipt, now);
    if |Holders(q.rows, item.receipt, now)| > 0 {
      HolderFacts(q, drawn, item.receipt, now);
    }
  }

  /** Answers of an extension batch agree with those of its prefixes. */
  lemma {:induction false} ExtendPrefix(q: Queue, items: seq<Extension>, times: seq<Time>, k: nat, n: nat)
    requires k < n <= |items| && n <= |times| && ExtendBatch(q, items, times, n).result.Ok?
    ensures var prior := ExtendBatch(q, items, times, k); var a := ExtendBatch(q, items, times, n).result.value;
      && prior.result.Ok? && |prior.result.value| == k && |a| == n && prior.result.value == a[..k]
      && ExtendOne(prior.queue, items[k], times[k]).result == Ok(a[k])
    decreases n
  {
    hide ExtendOne;
    if k < n - 1 {
      ExtendPrefix(q, items, times, k, n - 1);
    } else if k > 0 {
      ExtendPrefix(q, items, times, k - 1, k);
    }
  }

  /** Each item of an accepted extension batch acts, as `ExtendActs` says, on the queue its predecessors left. */
  lemma ExtendItemActs(r: Run, i: nat, k: nat)
    requires ValidRun(r) && i < |r.steps| && r.steps[i].Extending?
    requires k < |r.steps[i].extensions| <= |r.steps[i].times|
    requires Extend(r.worlds[i].queue, r.steps[i].extensions, r.steps[i].times).result.Ok?
    ensures var s := r.steps[i]; var q := r.worlds[i].queue; var a := Extend(q, s.extensions, s.times).result.value;
      var prior := ExtendBatch(q, s.extensions, s.times, k).queue;
      && |a| == |s.extensions| && QueueOk(prior, r.worlds[i].receipts) && Extensible(s.extensions[k])
      && ExtendOne(prior, s.extensions[k], s.times[k]).result == Ok(a[k])
  {
    hide QueueOk, Moves, Extensible, AllMove;
    RunMoves(r, i);
    var s, w := r.steps[i], r.worlds[i];
    InvQueue(w);
    hide Inv, StepMoves;
    ExtendBatchOk(w.queue, w.receipts, s.extensions, s.times, k);
    ExtendBatchOk(w.queue, w.receipts, s.extensions, s.times, |s.extensions|);
    ExtendPrefix(w.queue, s.extensions, s.times, k, |s.extensions|);
  }

  /** Only the end of the lease moved: forward, by the extension or to the cap if that is nearer. */
  predicate ExtendedBy(row: Row, after: Row, extension: Time) {
    && row.lease.Some? && after.lease.Some?
    && after == row.(lease := Some(row.lease.value.(until := after.lease.value.until)))
    && row.lease.value.until <= after.lease.value.until <= row.lease.value.cap
    && (after.lease.value.until == row.lease.value.until + extension
        || (after.lease.value.until == row.lease.value.cap && row.lease.value.cap < row.lease.value.until + extension))
  }

  /** A sweep ends exactly the leases that ran out and retires exactly the rows past retention. */
  lemma SweepExact(row: Row, maxAttempts: int, reap: Time, retire: Time)
    requires QueueRuns.RowOk(row) && reap <= retire
    ensures var after := Retired(Reaped(row, maxAttempts, reap), retire);
      && (after.status == InFlight <==> row.status == InFlight && row.lease.value.until > reap)
      && (after.status == Acked <==> row.status == Acked)
      && (after.status == Available <==>
            && row.expiresAt > retire
            && (row.status == Available
                || (row.status == InFlight && row.lease.value.until <= reap && row.attempts < maxAttempts)))
      && after.generation == row.generation && after.attempts == row.attempts
  {
  }

  /** The terms of a lease handed out at a time: it ends at the first of visibility, total lease and retention. */
  predicate Terms(row: Row, now: Time, policy: Policy, visibility: Option<nat>) {
    && row.lease.Some? && row.status == InFlight && row.lease.value.startedAt == now
    && row.lease.value.cap == now + Max(policy.maxTotalLease, 1) * SECOND
    && var until := row.lease.value.until;
    && until <= now + 3600 * SECOND && until <= now + Max(policy.maxVisibility, 1) * SECOND
    && (visibility.Some? ==> until <= now + Max(visibility.value, 1) * SECOND)
    && (visibility.None? ==> until <= now + 60 * SECOND)
    && until <= row.lease.value.cap && until <= row.expiresAt
    && (|| until == row.lease.value.cap || until == row.expiresAt
        || until == now + 3600 * SECOND || until == now + Max(policy.maxVisibility, 1) * SECOND
        || until == now + (if visibility.Some? then Max(visibility.value, 1) else 60) * SECOND)
  }

  /** Every item of a pull is leased on those terms, under the receipt drawn for it. */
  lemma PullTerms(r: Run, i: nat, k: nat)
    requires ValidRun(r) && i < |r.steps| && r.steps[i].Pulling? && Open(r.steps[i].policy)
    requires |r.steps[i].receipts| >= 100 && |r.steps[i].at.leases| >= 100
    requires var s := r.steps[i];
      var a := Pull(r.worlds[i].queue, s.policy, s.want, s.visibility, s.skipped, s.receipts, s.bad, s.at).result;
      a.Ok? && k < |a.value|
    ensures var s := r.steps[i]; var after := r.worlds[i + 1].queue.rows;
      var a := Pull(r.worlds[i].queue, s.policy, s.want, s.visibility, s.skipped, s.receipts, s.bad, s.at).result;
      var item := a.value[k];
      && k < 100 && item.id in after && item.receipt == s.receipts[k] && Describes(item, item.id, after[item.id])
      && Terms(after[item.id], s.at.leases[k], s.policy.value, s.visibility)
      && item.until == after[item.id].lease.value.until && item.id in r.worlds[i].queue.rows
      && var before := r.worlds[i].queue.rows[item.id];
      && after[item.id].attempts == before.attempts + 1 && after[item.id].generation == before.generation
      && after[item.id].availableAt == before.availableAt
  {
    hide Inv, Enabled, Pull, Swept, Pool, PullInputs, Handed, QueueOk, Choice, Selected;
    RunMoves(r, i);
    var s, q := r.steps[i], r.worlds[i].queue;
    InputsOk(r.worlds[i], s);
    var p := s.policy.value;
    var rows, ids := Swept(q.rows, p.maxAttempts, s.at.reap, s.at.retire), Choice(q, p, s.want, s.skipped, s.at);
    PullGives(q, r.worlds[i].receipts, s.policy, s.want, s.visibility, s.skipped, s.receipts, s.bad, s.at);
    var a := Pull(q, s.policy, s.want, s.visibility, s.skipped, s.receipts, s.bad, s.at);
    HandedTerms(rows, Batch(a.queue.rows, a.queue.log, a.result.value), ids, s.receipts, s.at.leases, p, s.visibility,
                k);
    SweptKeeps(q.rows, p.maxAttempts, s.at.reap, s.at.retire, ids[k]);
  }

  lemma SweptKeeps(rows: map<Uuid, Row>, maxAttempts: int, reap: Time, retire: Time, id: Uuid)
    requires id in Swept(rows, maxAttempts, reap, retire)
    ensures id in rows
    ensures var after := Swept(rows, maxAttempts, reap, retire)[id];
      && after.attempts == rows[id].attempts && after.generation == rows[id].generation
      && after.availableAt == rows[id].availableAt
  {
  }

  lemma HandedTerms(rows: map<Uuid, Row>, b: Batch, ids: seq<Uuid>, receipts: seq<string>, times: seq<Time>,
                    p: Policy, visibility: Option<nat>, k: nat)
    requires |ids| <= |receipts| && |ids| <= |times| && k < |b.items|
    requires Handed(rows, b, ids, receipts, times, Visible(p, visibility), Max(p.maxTotalLease, 1), |ids|)
    ensures k < |ids| && b.items[k].id in b.rows && b.items[k].receipt == receipts[k]
    ensures Describes(b.items[k], b.items[k].id, b.rows[b.items[k].id])
    ensures Terms(b.rows[b.items[k].id], times[k], p, visibility)
    ensures b.items[k].id == ids[k] && b.items[k].until == b.rows[ids[k]].lease.value.until && ids[k] in rows
    ensures b.rows[ids[k]] == rows[ids[k]].(status := InFlight, attempts := rows[ids[k]].attempts + 1,
                                            lease := b.rows[ids[k]].lease)
  {
    assert HandedTo(rows[ids[k]], b.rows[ids[k]], b.items[k], ids[k], receipts[k], times[k],
                    Visible(p, visibility), Max(p.maxTotalLease, 1));
  }

  // ---- bounds ----------------------------------------------------------------------------

  predicate Bounded(row: Row, most: int) {
    row.attempts <= most && (row.status == Available ==> row.attempts < most)
  }

  ghost predicate AllBounded(rows: map<Uuid, Row>, most: int) {
    forall id | id in rows :: Bounded(rows[id], most)
  }

  /** Every policy read by the step allows at most this many attempts and leases in flight. */
  predicate Within(s: Step, most: int, flights: int) {
    && (s.Pulling? && s.policy.Some? ==> s.policy.value.maxAttempts <= most && s.policy.value.maxInFlight <= flights)
    && (s.Settling? && s.maxAttempts.Some? ==> s.maxAttempts.value <= most)
  }

  ghost predicate Bounds(q: Queue, most: int, flights: int) {
    AllBounded(q.rows, most) && |Flying(q.rows)| <= flights
  }

  lemma PulledBounded(row: Row, maxAttempts: int, reap: Time, retire: Time, after: Row, receipts: seq<string>,
                      most: int)
    requires Bounded(row, most) && maxAttempts <= most
    requires Pulled(Retired(Reaped(row, maxAttempts, reap), retire), after, receipts)
    ensures Bounded(after, most)
  {
  }

  lemma PullBounds(w: World, s: Step, most: int, flights: int)
    requires Inv(w) && Enabled(w, s) && s.Pulling? && Within(s, most, flights) && Bounds(w.queue, most, flights)
    ensures Bounds(Apply(w, s).queue, most, flights)
  {
    hide Inv, Pull, Pulled, Enabled, QueueOk, Choice, Selected, Handed, Bounded, PullInputs;
    InputsOk(w, s);
    var q := w.queue;
    if Open(s.policy) {
      var a := Pull(q, s.policy, s.want, s.visibility, s.skipped, s.receipts, s.bad, s.at);
      PullGives(q, w.receipts, s.policy, s.want, s.visibility, s.skipped, s.receipts, s.bad, s.at);
      if a.result.Ok? {
        PullRows(q, w.receipts, s.policy, s.want, s.visibility, s.skipped, s.receipts, s.bad, s.at);
        var p := s.policy.value;
        var rows := Swept(q.rows, p.maxAttempts, s.at.reap, s.at.retire);
        InvQueue(w);
        SweptOk(q, w.receipts, p.maxAttempts, s.at.reap, s.at.retire, 0);
        Sets.SubsetCard(Flying(rows), Flying(q.rows));
        forall id | id in a.queue.rows ensures Bounded(a.queue.rows[id], most) {
          PulledBounded(q.rows[id], p.maxAttempts, s.at.reap, s.at.retire, a.queue.rows[id], s.receipts, most);
        }
      }
    } else {
      NotOpen(q, s);
    }
  }

  lemma InvQueue(w: World)
    requires Inv(w)
    ensures QueueOk(w.queue, w.receipts)
  {
  }

  /** A single row written, in flight only if it was before. */
  lemma PutBounds(q: Queue, id: Uuid, row: Row, clock: Time, log: set<Entry>, most: int, flights: int)
    requires Bounds(q, most, flights) && id in q.rows && Bounded(row, most)
    requires row.status == InFlight ==> q.rows[id].status == InFlight
    ensures Bounds(Queue(clock, q.rows[id := row], log), most, flights)
  {
    hide Bounded;
    Sets.SubsetCard(Flying(q.rows[id := row]), Flying(q.rows));
  }

  lemma {:induction false} SettleBounds(q: Queue, drawn: set<string>, maxAttempts: int, items: seq<Settlement>,
                                        times: seq<Time>, n: nat, most: int, flights: int)
    requires QueueOk(q, drawn) && n <= |items| && n <= |times| && maxAttempts <= most && Bounds(q, most, flights)
    ensures Bounds(SettleBatch(q, maxAttempts, items, times, n).queue, most, flights)
  {
    hide QueueOk, AllMove, Spent, Bounds;
    if n > 0 {
      SettleBounds(q, drawn, maxAttempts, items, times, n - 1, most, flights);
      SettleBatchOk(q, drawn, maxAttempts, items, times, n - 1);
      var prior := SettleBatch(q, maxAttempts, items, times, n - 1);
      if prior.result.Ok? {
        SettleOneBounds(prior.queue, drawn, maxAttempts, items[n - 1], times[n - 1], most, flights);
      }
    }
  }

  lemma SettleOneBounds(q: Queue, drawn: set<string>, maxAttempts: int, item: Settlement, now: Time, most: int,
                        flights: int)
    requires QueueOk(q, drawn) && maxAttempts <= most && Bounds(q, most, flights)
    ensures Bounds(SettleOne(q, maxAttempts, item, now).queue, most, flights)
  {
    hide QueueOk;
    if WellFormed(item) && |Holders(q.rows, item.receipt, now)| > 0 {
      HolderFacts(q, drawn, item.receipt, now);
      var id := First(q.rows, Holders(q.rows, item.receipt, now));
      var row := SettledRow(q.rows[id], item, maxAttempts, now);
      PutBounds(q, id, row, now, q.log + {Entry(id, row.generation, row.attempts, Closed(row.status))}, most, flights);
    }
  }

  lemma {:induction false} ExtendBounds(q: Queue, drawn: set<string>, items: seq<Extension>, times: seq<Time>, n: nat,
                                        most: int, flights: int)
    requires QueueOk(q, drawn) && n <= |items| && n <= |times| && Bounds(q, most, flights)
    ensures Bounds(ExtendBatch(q, items, times, n).queue, most, flights)
  {
    hide QueueOk, AllMove, Bounds;
    if n > 0 {
      ExtendBounds(q, drawn, items, times, n - 1, most, flights);
      ExtendBatchOk(q, drawn, items, times, n - 1);
      var prior := ExtendBatch(q, items, times, n - 1);
      if prior.result.Ok? {
        ExtendOneBounds(prior.queue, drawn, items[n - 1], times[n - 1], most, flights);
      }
    }
  }

  lemma ExtendOneBounds(q: Queue, drawn: set<string>, item: Extension, now: Time, most: int, flights: int)
    requires QueueOk(q, drawn) && Bounds(q, most, flights)
    ensures Bounds(ExtendOne(q, item, now).queue, most, flights)
  {
    hide QueueOk;
    if |Holders(q.rows, item.receipt, now)| > 0 {
      HolderFacts(q, drawn, item.receipt, now);
      var id := First(q.rows, Holders(q.rows, item.receipt, now));
      PutBounds(q, id, ExtendedRow(q.rows[id], item.seconds), now, q.log, most, flights);
    }
  }

  lemma OtherBounds(w: World, s: Step, most: int, flights: int)
    requires s.Arriving? || s.Replaying? || s.Deleting?
    requires Inv(w) && Enabled(w, s) && most >= 1 && Bounds(w.queue, most, flights)
    ensures Bounds(Apply(w, s).queue, most, flights)
  {
    hide QueueOk;
    Sets.SubsetCard(Flying(Apply(w, s).queue.rows), Flying(w.queue.rows));
  }

  lemma StepBounds(w: World, s: Step, most: int, flights: int)
    requires Inv(w) && Enabled(w, s) && most >= 1 && Within(s, most, flights) && Bounds(w.queue, most, flights)
    ensures Bounds(Apply(w, s).queue, most, flights)
  {
    hide Bounds, QueueOk;
    if s.Pulling? {
      PullBounds(w, s, most, flights);
    } else if s.Settling? {
      if |s.items| <= 100 && s.maxAttempts.Some? {
        SettleBounds(w.queue, w.receipts, s.maxAttempts.value, s.items, s.times, |s.items|, most, flights);
      }
    } else if s.Extending? {
      if |s.extensions| <= 100 {
        ExtendBounds(w.queue, w.receipts, s.extensions, s.times, |s.extensions|, most, flights);
      }
    } else {
      OtherBounds(w, s, most, flights);
    }
  }

  /**
   However policies change, no delivery is attempted more often, and no more leases are in
   flight, than the most generous policy read so far allows.
   */
  lemma {:induction false} QueueBounds(r: Run, j: nat, most: int, flights: nat)
    requires ValidRun(r) && j < |r.worlds| && most >= 1 && forall i | 0 <= i < j :: Within(r.steps[i], most, flights)
    ensures Bounds(r.worlds[j].queue, most, flights)
  {
    hide Within;
    if j == 0 {
      assert Flying(r.worlds[0].queue.rows) == {};
    } else {
      hide Bounds, Inv;
      QueueBounds(r, j - 1, most, flights);
      RunMoves(r, j - 1);
      StepBounds(r.worlds[j - 1], r.steps[j - 1], most, flights);
    }
  }

  // ---- history ---------------------------------------------------------------------------

  /** An acknowledged delivery is never touched again. */
  lemma {:induction false} AckedIsFinal(r: Run, i: nat, j: nat, id: Uuid)
    requires ValidRun(r) && i <= j < |r.worlds| && id in r.worlds[i].queue.rows
        && r.worlds[i].queue.rows[id].status == Acked
    ensures id in r.worlds[j].queue.rows && r.worlds[j].queue.rows[id] == r.worlds[i].queue.rows[id]
    decreases j - i
  {
    if i < j {
      RunMoves(r, i);
      AckedIsFinal(r, i + 1, j, id);
    }
  }

  /** Generation and attempt number only move forward, attempts restarting only with a new generation. */
  lemma {:induction false} AttemptsAdvance(r: Run, i: nat, j: nat, id: Uuid)
    requires ValidRun(r) && i <= j < |r.worlds|
    requires forall k | i <= k <= j :: id in r.worlds[k].queue.rows
    ensures var a, b := r.worlds[i].queue.rows[id], r.worlds[j].queue.rows[id];
      a.generation < b.generation || (a.generation == b.generation && a.attempts <= b.attempts)
    decreases j - i
  {
    if i < j {
      RunMoves(r, i);
      AttemptsAdvance(r, i + 1, j, id);
    }
  }

  /** Each time a delivery is handed out, its generation and attempt are later than the time before. */
  lemma LeasesIncrease(r: Run, i: nat, j: nat, id: Uuid)
    requires ValidRun(r) && i < j < |r.steps| && forall k | i <= k <= j + 1 :: id in r.worlds[k].queue.rows
    requires NewLease(r.worlds[i].queue.rows[id], r.worlds[i + 1].queue.rows[id], StepIssues(r.steps[i]))
    requires NewLease(r.worlds[j].queue.rows[id], r.worlds[j + 1].queue.rows[id], StepIssues(r.steps[j]))
    ensures var a, b := r.worlds[i + 1].queue.rows[id], r.worlds[j + 1].queue.rows[id];
      a.generation < b.generation || (a.generation == b.generation && a.attempts < b.attempts)
  {
    AttemptsAdvance(r, i + 1, j, id);
  }

  /** A delivery leaves the queue only by deleting a dead letter. */
  lemma {:induction false} OnlyDeadLettersLeave(r: Run, i: nat, j: nat, id: Uuid) returns (k: nat)
    requires ValidRun(r) && i <= j < |r.worlds| && id in r.worlds[i].queue.rows && id !in r.worlds[j].queue.rows
    ensures i <= k < j && id in r.worlds[k].queue.rows && r.worlds[k].queue.rows[id].status == DeadLetter
    ensures r.steps[k].Deleting? && id in r.steps[k].ids
    decreases j - i
  {
    RunMoves(r, i);
    if id in r.worlds[i + 1].queue.rows {
      k := OnlyDeadLettersLeave(r, i + 1, j, id);
    } else {
      k := i;
      OnlyDeletingRemoves(r.worlds[i], r.steps[i], id);
    }
  }

  lemma OnlyDeletingRemoves(w: World, s: Step, id: Uuid)
    requires Inv(w) && Enabled(w, s) && id in w.queue.rows && id !in Apply(w, s).queue.rows
    ensures s.Deleting? && id in s.ids
  {
    hide QueueOk, Pull, SettleBatch, ExtendBatch, PullInputs, Handed, Choice, Selected, AllMove;
    if s.Pulling? {
      InputsOk(w, s);
      if Open(s.policy) {
        PullGives(w.queue, w.receipts, s.policy, s.want, s.visibility, s.skipped, s.receipts, s.bad, s.at);
        if Pull(w.queue, s.policy, s.want, s.visibility, s.skipped, s.receipts, s.bad, s.at).result.Ok? {
          PullRows(w.queue, w.receipts, s.policy, s.want, s.visibility, s.skipped, s.receipts, s.bad, s.at);
        }
      } else {
        NotOpen(w.queue, s);
      }
    } else if s.Settling? && |s.items| <= 100 && s.maxAttempts.Some? {
      SettleBatchOk(w.queue, w.receipts, s.maxAttempts.value, s.items, s.times, |s.items|);
      SameKeys(w.queue.rows, SettleBatch(w.queue, s.maxAttempts.value, s.items, s.times, |s.items|).queue.rows);
    } else if s.Extending? && |s.extensions| <= 100 {
      ExtendBatchOk(w.queue, w.receipts, s.extensions, s.times, |s.extensions|);
      SameKeys(w.queue.rows, ExtendBatch(w.queue, s.extensions, s.times, |s.extensions|).queue.rows);
    }
  }

  lemma SameKeys(rows: map<Uuid, Row>, after: map<Uuid, Row>)
    requires AllMove(rows, after)
    ensures after.Keys == rows.Keys
  {
  }

  /** The attempt log of a generation is complete, and its unique key is never violated. */
  lemma QueueLedger(r: Run, j: nat, id: Uuid)
    requires ValidRun(r) && j < |r.worlds| && id in r.worlds[j].queue.rows
    ensures var row := r.worlds[j].queue.rows[id]; var log := r.worlds[j].queue.log;
      forall n :: 1 <= n <= row.attempts <==> n >= 1 && Entry(id, row.generation, n, LeasedOut) in log
  {
    RunInv(r, j);
    var row, log := r.worlds[j].queue.rows[id], r.worlds[j].queue.log;
    assert Logged(id, row, log);
    forall n | Entry(id, row.generation, n, LeasedOut) in log ensures n <= row.attempts {
      assert Past(row, Entry(id, row.generation, n, LeasedOut));
    }
  }

  // ---- service order and retention ---------------------------------------------------------

  /** A pull hands out the front of the ready rows in pull order, and all of them if there is room. */
  lemma PullServesFront(r: Run, i: nat)
    requires ValidRun(r) && i < |r.steps| && r.steps[i].Pulling? && Open(r.steps[i].policy)
    ensures var s := r.steps[i]; var q := r.worlds[i].queue; var p := s.policy.value;
      var rows := Swept(q.rows, p.maxAttempts, s.at.reap, s.at.retire); var pool := Pool(rows, s.at.select, s.skipped);
      && |s.receipts| >= 100 && |s.at.leases| >= 100
      && IsTop(rows, pool, Room(p, s.want, |Flying(rows)|), Choice(q, p, s.want, s.skipped, s.at))
      && var a := Pull(q, s.policy, s.want, s.visibility, s.skipped, s.receipts, s.bad, s.at).result;
      (a.Ok? ==> Served(a.value, Choice(q, p, s.want, s.skipped, s.at)))
  {
    hide Inv, Enabled, Pull, Swept, Pool, PullInputs, Handed, IsTop, QueueOk;
    RunMoves(r, i);
    var s, q := r.steps[i], r.worlds[i].queue;
    InputsOk(r.worlds[i], s);
    var p := s.policy.value;
    var rows := Swept(q.rows, p.maxAttempts, s.at.reap, s.at.retire);
    PoolInRows(rows, s.at.select, s.skipped);
    SelectIsTop(rows, Pool(rows, s.at.select, s.skipped), Room(p, s.want, |Flying(rows)|));
    PullGives(q, r.worlds[i].receipts, s.policy, s.want, s.visibility, s.skipped, s.receipts, s.bad, s.at);
    var a := Pull(q, s.policy, s.want, s.visibility, s.skipped, s.receipts, s.bad, s.at);
    if a.result.Ok? {
      HandedServes(rows, Batch(a.queue.rows, a.queue.log, a.result.value), Choice(q, p, s.want, s.skipped, s.at),
                   s.receipts, s.at.leases, Visible(p, s.visibility), Max(p.maxTotalLease, 1));
    }
  }

  /** The items are for these deliveries, in this order. */
  ghost predicate Served(items: seq<Item>, ids: seq<Uuid>) {
    |items| == |ids| && forall i | 0 <= i < |ids| :: items[i].id == ids[i]
  }

  lemma HandedServes(rows: map<Uuid, Row>, b: Batch, ids: seq<Uuid>, receipts: seq<string>, times: seq<Time>,
                     visible: int, total: int)
    requires |ids| <= |receipts| && |ids| <= |times| && Handed(rows, b, ids, receipts, times, visible, total, |ids|)
    ensures Served(b.items, ids)
  {
    forall k | 0 <= k < |ids| ensures b.items[k].id == ids[k] {
      HandedIsItem(rows, b, ids, receipts, times, visible, total, k);
    }
  }
}
