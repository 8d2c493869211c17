/**
 Leases against retention: a pull ends a lease within its delivery's retention, extensions are only
 capped at the total lease. This module says exactly which leases can outlive retention.
 */
module QueueRetention {
  import opened Protocol
  import opened Queues
  import opened QueueRuns
  import opened QueueTheorems

  /** The lease ends before its delivery's retention does. */
  predicate Timely(row: Row) {
    row.lease.Some? ==> row.lease.value.until <= row.expiresAt
  }

  // ---- what each operation does to a lease it does not end ---------------------------------

  /** Every row keeps its lease as it is or has none afterwards. */
  ghost predicate KeptOrEnded(rows: map<Uuid, Row>, after: map<Uuid, Row>) {
    forall id | id in rows && id in after :: after[id] == rows[id] || after[id].lease.None?
  }

  lemma SettleOneEnds(q: Queue, drawn: set<string>, maxAttempts: int, item: Settlement, now: Time)
    requires QueueOk(q, drawn)
    ensures var a := SettleOne(q, maxAttempts, item, now);
      a.queue.rows.Keys == q.rows.Keys && KeptOrEnded(q.rows, a.queue.rows)
  {
    hide QueueOk, WellFormed;
    if |Holders(q.rows, item.receipt, now)| > 0 {
      HolderFacts(q, drawn, item.receipt, now);
    }
  }

  lemma {:induction false} SettleKeepsOrEnds(q: Queue, drawn: set<string>, maxAttempts: int, items: seq<Settlement>,
                                             times: seq<Time>, n: nat)
    requires QueueOk(q, drawn) && n <= |items| && n <= |times|
    ensures var a := SettleBatch(q, maxAttempts, items, times, n);
      a.queue.rows.Keys == q.rows.Keys && KeptOrEnded(q.rows, a.queue.rows)
  {
    hide QueueOk, AllMove, Spent, WellFormed, SettleOne;
    if n > 0 {
      SettleKeepsOrEnds(q, drawn, maxAttempts, items, times, n - 1);
      SettleBatchOk(q, drawn, maxAttempts, items, times, n - 1);
      var prior := SettleBatch(q, maxAttempts, items, times, n - 1);
      if prior.result.Ok? {
        SettleOneEnds(prior.queue, drawn, maxAttempts, items[n - 1], times[n - 1]);
      }
    }
  }

  /** Leases that had run out by `now` are as they were. */
  ghost predicate Frozen(rows: map<Uuid, Row>, after: map<Uuid, Row>, now: Time) {
    forall id | id in rows && id in after && rows[id].lease.Some? && rows[id].lease.value.until <= now ::
      after[id] == rows[id]
  }

  lemma ExtendOneFreezes(q: Queue, drawn: set<string>, item: Extension, time: Time, now: Time)
    requires QueueOk(q, drawn) && now <= time
    ensures var a := ExtendOne(q, item, time);
      a.queue.rows.Keys == q.rows.Keys && Frozen(q.rows, a.queue.rows, now)
  {
    hide QueueOk, Extensible;
    if |Holders(q.rows, item.receipt, time)| > 0 {
      HolderFacts(q, drawn, item.receipt, time);
    }
  }

  lemma {:induction false} ExtendFreezes(q: Queue, drawn: set<string>, items: seq<Extension>, times: seq<Time>, n: nat,
                                         now: Time)
    requires QueueOk(q, drawn) && n <= |items| && n <= |times| && forall i | 0 <= i < |times| :: now <= times[i]
    ensures var a := ExtendBatch(q, items, times, n);
      a.queue.rows.Keys == q.rows.Keys && Frozen(q.rows, a.queue.rows, now)
  {
    hide QueueOk, AllMove, Extensible, ExtendOne;
    if n > 0 {
      ExtendFreezes(q, drawn, items, times, n - 1, now);
      ExtendBatchOk(q, drawn, items, times, n - 1);
      var prior := ExtendBatch(q, items, times, n - 1);
      if prior.result.Ok? {
        ExtendOneFreezes(prior.queue, drawn, items[n - 1], times[n - 1], now);
      }
    }
  }

  /** A pull keeps a lease it does not end; a lease it starts ends within retention. */
  lemma PulledLease(row: Row, maxAttempts: int, reap: Time, retire: Time, after: Row, receipts: seq<string>)
    requires Pulled(Retired(Reaped(row, maxAttempts, reap), retire), after, receipts)
    ensures SameLease(row, after) ==> after.lease == row.lease
    ensures after.lease.Some? && !SameLease(row, after) ==> Timely(after)
    ensures after.expiresAt == row.expiresAt
  {
  }

  lemma PullLease(w: World, s: Step, id: Uuid)
    requires Inv(w) && Enabled(w, s) && s.Pulling? && id in w.queue.rows && id in Apply(w, s).queue.rows
    ensures var row, after := w.queue.rows[id], Apply(w, s).queue.rows[id];
      && (SameLease(row, after) ==> after.lease == row.lease)
      && (after.lease.Some? && !SameLease(row, after) ==> Timely(after))
      && after.expiresAt == row.expiresAt
  {
    hide Inv, Pull, Pulled, Enabled, QueueOk, Choice, Selected, Handed, PullInputs, Timely;
    InputsOk(w, s);
    var q := w.queue;
    if Open(s.policy) {
      var a := Pull(q, s.policy, s.want, s.visibility, s.skipped, s.receipts, s.bad, s.at);
      PullGives(q, w.receipts, s.policy, s.want, s.visibility, s.skipped, s.receipts, s.bad, s.at);
      if a.result.Ok? {
        PullRows(q, w.receipts, s.policy, s.want, s.visibility, s.skipped, s.receipts, s.bad, s.at);
        PulledLease(q.rows[id], s.policy.value.maxAttempts, s.at.reap, s.at.retire, a.queue.rows[id], s.receipts);
      } else {
        SameRow(q.rows[id]);
      }
    } else {
      NotOpen(q, s);
      SameRow(q.rows[id]);
    }
  }

  lemma SameRow(row: Row)
    ensures row.lease.Some? ==> SameLease(row, row)
  {
  }

  /** Only an extension moves the end of a lease, and only of one that has not run out. */
  lemma LeaseStep(w: World, s: Step, id: Uuid)
    requires Inv(w) && Enabled(w, s) && id in w.queue.rows && id in Apply(w, s).queue.rows
    requires SameLease(w.queue.rows[id], Apply(w, s).queue.rows[id])
    ensures var row, after := w.queue.rows[id], Apply(w, s).queue.rows[id];
      (s.Extending? && row.lease.value.until > w.queue.clock) || after.lease == row.lease
  {
    hide QueueOk;
    if s.Pulling? {
      PullLease(w, s, id);
    } else if s.Settling? && |s.items| <= 100 && s.maxAttempts.Some? {
      SettleKeepsOrEnds(w.queue, w.receipts, s.maxAttempts.value, s.items, s.times, |s.items|);
    } else if s.Extending? && |s.extensions| <= 100 {
      ExtendFreezes(w.queue, w.receipts, s.extensions, s.times, |s.extensions|, w.queue.clock);
    }
  }

  /** Time does not run backwards. */
  lemma ClockAdvances(w: World, s: Step)
    requires Inv(w) && Enabled(w, s)
    ensures w.queue.clock <= Apply(w, s).queue.clock
  {
    hide QueueOk, AllMove, Spent;
    if s.Settling? && |s.items| <= 100 && s.maxAttempts.Some? {
      SettleClock(w.queue, s.maxAttempts.value, s.items, s.times, |s.items|);
    } else if s.Extending? && |s.extensions| <= 100 {
      ExtendClock(w.queue, s.extensions, s.times, |s.extensions|);
    } else if s.Pulling? && Open(s.policy) {
      hide Drawn, Inv;
    }
  }

  lemma {:induction false} SettleClock(q: Queue, maxAttempts: int, items: seq<Settlement>, times: seq<Time>, n: nat)
    requires n <= |items| && n <= |times| && Rising(q.clock, times)
    ensures var a := SettleBatch(q, maxAttempts, items, times, n);
      q.clock <= a.queue.clock && (n < |times| ==> a.queue.clock <= times[n])
  {
    if n > 0 {
      SettleClock(q, maxAttempts, items, times, n - 1);
    }
  }

  lemma {:induction false} ExtendClock(q: Queue, items: seq<Extension>, times: seq<Time>, n: nat)
    requires n <= |items| && n <= |times| && Rising(q.clock, times)
    ensures var a := ExtendBatch(q, items, times, n);
      q.clock <= a.queue.clock && (n < |times| ==> a.queue.clock <= times[n])
  {
    if n > 0 {
      ExtendClock(q, items, times, n - 1);
    }
  }

  // ---- runs --------------------------------------------------------------------------------

  /**
   In every run, a lease that outlives retention was carried past it by an extension, and its cap
   lies past retention too.
   */
  lemma {:induction false} OnlyExtensionsOutlive(r: Run, j: nat, id: Uuid) returns (k: nat)
    requires ValidRun(r) && j < |r.worlds| && id in r.worlds[j].queue.rows && !Timely(r.worlds[j].queue.rows[id])
    ensures k < j && r.steps[k].Extending? && id in r.worlds[k].queue.rows && id in r.worlds[k + 1].queue.rows
    ensures Timely(r.worlds[k].queue.rows[id]) && !Timely(r.worlds[k + 1].queue.rows[id])
    ensures SameLease(r.worlds[k].queue.rows[id], r.worlds[j].queue.rows[id])
    ensures r.worlds[k].queue.rows[id].lease.value.cap > r.worlds[k].queue.rows[id].expiresAt
    decreases j
  {
    hide Pull, Enabled, Apply, QueueOk;
    RunMoves(r, j - 1);
    var before, after := r.worlds[j - 1].queue.rows, r.worlds[j].queue.rows;
    assert Moves(before[id], after[id], StepIssues(r.steps[j - 1]));
    if SameLease(before[id], after[id]) {
      LeaseStep(r.worlds[j - 1], r.steps[j - 1], id);
      if Timely(before[id]) {
        k := j - 1;
        RowInRun(r, j, id);
      } else {
        k := OnlyExtensionsOutlive(r, j - 1, id);
      }
    } else {
      PullLease(r.worlds[j - 1], r.steps[j - 1], id);
    }
  }

  lemma RowInRun(r: Run, j: nat, id: Uuid)
    requires ValidRun(r) && j < |r.worlds| && id in r.worlds[j].queue.rows
    ensures RowOk(r.worlds[j].queue.rows[id])
  {
    RunInv(r, j);
  }

  /** A lease that has run out is never changed while it lasts. */
  lemma {:induction false} RunOutStays(r: Run, i: nat, j: nat, id: Uuid)
    requires ValidRun(r) && i <= j < |r.worlds| && id in r.worlds[i].queue.rows
        && r.worlds[i].queue.rows[id].lease.Some?
    requires r.worlds[i].queue.rows[id].lease.value.until <= r.worlds[i].queue.clock
    requires StillLeased(r.worlds[j].queue, id, r.worlds[i].queue.rows[id])
    ensures r.worlds[j].queue.rows[id].lease == r.worlds[i].queue.rows[id].lease
    ensures r.worlds[i].queue.clock <= r.worlds[j].queue.clock
    decreases j
  {
    hide Inv, Enabled, Apply, StepMoves, Void;
    if i < j {
      RunMoves(r, j - 1);
      ReceiptFate(r, i, j - 1, id);
      var row := r.worlds[i].queue.rows[id];
      if !StillLeased(r.worlds[j - 1].queue, id, row) {
        VoidForever(r, j - 1, j, row.lease.value.receipt);
        NotVoid(r.worlds[j], id, row.lease.value.receipt);
      }
      RunOutStays(r, i, j - 1, id);
      ClockAdvances(r.worlds[j - 1], r.steps[j - 1]);
      LeaseStep(r.worlds[j - 1], r.steps[j - 1], id);
    }
  }

  lemma NotVoid(w: World, id: Uuid, receipt: string)
    requires id in w.queue.rows && w.queue.rows[id].lease.Some? && w.queue.rows[id].lease.value.receipt == receipt
    ensures !Void(w, receipt)
  {
  }

  // ---- exactly when ------------------------------------------------------------------------

  /** `s` goes on where `r` ends. */
  ghost predicate Continues(r: Run, s: Run) {
    ValidRun(s) && r.worlds <= s.worlds && r.steps <= s.steps
  }

  function Last(r: Run): World
    requires r.worlds != []
  {
    r.worlds[|r.worlds| - 1]
  }

  /** However the run goes on, this lease ends within retention for as long as it lasts. */
  ghost predicate StaysTimely(r: Run, id: Uuid)
    requires r.worlds != [] && id in Last(r).queue.rows
  {
    forall s, j | Continues(r, s) && |r.worlds| - 1 <= j < |s.worlds|
                  && StillLeased(s.worlds[j].queue, id, Last(r).queue.rows[id]) ::
      Timely(s.worlds[j].queue.rows[id])
  }

  /** Capped within retention, or run out without having passed it. */
  predicate Confined(row: Row, now: Time)
    requires row.lease.Some?
  {
    var lease := row.lease.value;
    lease.cap <= row.expiresAt || (lease.until <= now && lease.until <= row.expiresAt)
  }

  lemma ConfinedStays(r: Run, id: Uuid, s: Run, j: nat)
    requires ValidRun(r) && id in Last(r).queue.rows && Last(r).queue.rows[id].lease.Some?
    requires Confined(Last(r).queue.rows[id], Last(r).queue.clock)
    requires Continues(r, s) && |r.worlds| - 1 <= j < |s.worlds|
    requires StillLeased(s.worlds[j].queue, id, Last(r).queue.rows[id])
    ensures Timely(s.worlds[j].queue.rows[id])
  {
    hide Follows;
    var i := |r.worlds| - 1;
    assert s.worlds[i] == r.worlds[i];
    RowInRun(s, j, id);
    if Last(r).queue.rows[id].lease.value.until <= Last(r).queue.clock {
      RunOutStays(s, i, j, id);
    }
  }

  /** One more step. */
  function Extended(r: Run, s: Step): Run
    requires r.worlds != []
    requires s.Extending? && |s.extensions| <= |s.times|
  {
    Run(r.worlds + [Apply(Last(r), s)], r.steps + [s])
  }

  /** The longest extension of one receipt, asked for at once. */
  function Ask(w: World, receipt: string): Step {
    Extending([Extension(receipt, 3600)], [w.queue.clock])
  }

  lemma ExtendedRun(r: Run, receipt: string)
    requires ValidRun(r)
    ensures Continues(r, Extended(r, Ask(Last(r), receipt)))
  {
    var s := Extended(r, Ask(Last(r), receipt));
    forall i | 0 <= i < |s.steps| ensures Follows(s, i) {
      if i < |r.steps| { assert Follows(r, i); }
    }
  }

  /** Asking for a live lease moves its end an hour on, or to its cap, at the same time. */
  lemma AskMoves(w: World, id: Uuid)
    requires Inv(w) && id in w.queue.rows && w.queue.rows[id].lease.Some?
    requires w.queue.rows[id].lease.value.until > w.queue.clock
    ensures var row := w.queue.rows[id]; var after := Apply(w, Ask(w, row.lease.value.receipt));
      && after.queue.clock == w.queue.clock && StillLeased(after.queue, id, row)
      && after.queue.rows[id].lease.value.until == Min(row.lease.value.until + 3600 * SECOND, row.lease.value.cap)
  {
    var q, receipt := w.queue, w.queue.rows[id].lease.value.receipt;
    assert Spelled(receipt) && RowOk(q.rows[id]);
    hide QueueOk, Utf8Length;
    var item := Extension(receipt, 3600);
    HoldersLive(q, w.receipts, receipt, q.clock);
    assert id in Holders(q.rows, receipt, q.clock);
    HolderFacts(q, w.receipts, receipt, q.clock);
    var items, times := [item], [q.clock];
    assert ExtendBatch(q, items, times, 0) == Answer(q, Ok([]));
    assert ExtendBatch(q, items, times, 1).queue == ExtendOne(q, item, q.clock).queue;
  }

  /** A live lease capped past retention can be carried past it by extensions alone. */
  lemma {:induction false} Outlive(r: Run, id: Uuid) returns (s: Run)
    requires ValidRun(r) && id in Last(r).queue.rows && Last(r).queue.rows[id].lease.Some?
    requires Last(r).queue.rows[id].lease.value.until > Last(r).queue.clock
    requires Last(r).queue.rows[id].lease.value.cap > Last(r).queue.rows[id].expiresAt
    ensures Continues(r, s) && StillLeased(Last(s).queue, id, Last(r).queue.rows[id])
    ensures !Timely(Last(s).queue.rows[id])
    ensures forall i | |r.steps| <= i < |s.steps| :: s.steps[i].Extending?
    decreases Max(0, Last(r).queue.rows[id].expiresAt - Last(r).queue.rows[id].lease.value.until + 1)
  {
    hide Apply, Inv;
    var w, row := Last(r), Last(r).queue.rows[id];
    if row.lease.value.until > row.expiresAt {
      return r;
    }
    var next := Extended(r, Ask(w, row.lease.value.receipt));
    ExtendedRun(r, row.lease.value.receipt);
    RunInv(r, |r.worlds| - 1);
    AskMoves(w, id);
    s := Outlive(next, id);
  }

  /**
   A lease stays within retention however the run goes on exactly when it is capped there or has
   run out there. Cap and retention are known when the lease is handed out.
   */
  lemma StaysTimelyExactly(r: Run, id: Uuid)
    requires ValidRun(r) && id in Last(r).queue.rows && Last(r).queue.rows[id].lease.Some?
    ensures StaysTimely(r, id) <==> Confined(Last(r).queue.rows[id], Last(r).queue.clock)
  {
    hide Follows;
    var row := Last(r).queue.rows[id];
    if Confined(row, Last(r).queue.clock) {
      forall s, j | Continues(r, s) && |r.worlds| - 1 <= j < |s.worlds| && StillLeased(s.worlds[j].queue, id, row)
        ensures Timely(s.worlds[j].queue.rows[id])
      {
        ConfinedStays(r, id, s, j);
      }
    } else {
      var s := r;
      if row.lease.value.until <= row.expiresAt {
        s := Outlive(r, id);
      }
      assert Continues(r, s) && StillLeased(s.worlds[|s.worlds| - 1].queue, id, row);
    }
  }

  // ---- an instance -------------------------------------------------------------------------

  function Letters(n: nat): string {
    if n == 0 then "" else ['a'] + Letters(n - 1)
  }

  lemma {:induction false} LettersLength(n: nat)
    ensures |Letters(n)| == n && Utf8Length(Letters(n)) == n
  {
    if n > 0 {
      LettersLength(n - 1);
      assert Letters(n)[1..] == Letters(n - 1);
    }
  }

  function Hundred(): seq<string> {
    seq(100, i requires 0 <= i < 100 => Letters(i + 1))
  }

  const GENEROUS := Policy(true, false, false, 10, 10, 5, 300, 3600)

  /** One delivery retained for ten seconds arrives and is pulled at once under an hour's total lease. */
  function Begun(): Run {
    var w0 := World(Queue(0, map[], {}), {}, {});
    var arrive := Arriving(1, 0, 10 * SECOND, 0);
    var w1 := Apply(w0, arrive);
    var pull := Pulling(Some(GENEROUS), None, None, {}, Hundred(), {}, PullTimes(0, 0, 0, seq(100, _ => 0)));
    Run([w0, w1, Apply(w1, pull)], [arrive, pull])
  }

  lemma BegunValid()
    ensures ValidRun(Begun())
  {
    hide Pull, Letters;
    forall i | 0 <= i < 100 ensures Spelled(Hundred()[i]) && |Hundred()[i]| == i + 1 { LettersLength(i + 1); }
    var r := Begun();
    assert Follows(r, 0);
    assert Follows(r, 1);
  }

  /** The pull sweeps nothing and chooses the one delivery. */
  lemma BegunChoice(q: Queue, at: PullTimes)
    requires q.rows == map[1 := Arrived(0, 10 * SECOND, 0)] && at.reap == at.retire == at.select == 0
    ensures Swept(q.rows, 5, 0, 0) == q.rows && Choice(q, GENEROUS, None, {}, at) == [1]
  {
    var rows := Swept(q.rows, 5, 0, 0);
    assert rows == q.rows;
    assert Flying(rows) == {} && Pool(rows, 0, {}) == {1};
    var ids := Choice(q, GENEROUS, None, {}, at);
    assert |ids| == 1 && ids[0] in Pool(rows, 0, {});
  }

  lemma FirstPull(w: World, s: Step)
    requires Inv(w) && Enabled(w, s) && s.Pulling? && s.policy == Some(GENEROUS) && s.want.None? && s.visibility.None?
    requires s.skipped == {} && s.bad == {} && s.at.reap == s.at.retire == s.at.select == 0 == w.queue.clock
    requires w.queue.rows == map[1 := Arrived(0, 10 * SECOND, 0)]
    requires forall i | 0 <= i < |s.at.leases| :: s.at.leases[i] == 0
    ensures var after := Apply(w, s).queue;
      && 1 in after.rows && after.rows[1].lease.Some? && after.clock == 0
      && after.rows[1].lease.value.until == 10 * SECOND == after.rows[1].expiresAt
      && after.rows[1].lease.value.cap == 3600 * SECOND
  {
    hide Inv, QueueOk, Enabled, PullInputs, Pull, Selected, Swept, Choice;
    InputsOk(w, s);
    PullGives(w.queue, w.receipts, s.policy, s.want, s.visibility, s.skipped, s.receipts, s.bad, s.at);
    BegunChoice(w.queue, s.at);
    PullClock(w.queue, s);
    var a := Pull(w.queue, s.policy, s.want, s.visibility, s.skipped, s.receipts, s.bad, s.at);
    assert HandedTo(w.queue.rows[1], a.queue.rows[1], a.result.value[0], 1, s.receipts[0], 0, 60, 3600);
  }

  lemma BegunLease()
    ensures ValidRun(Begun()) && 1 in Last(Begun()).queue.rows
    ensures var row := Last(Begun()).queue.rows[1];
      && row.lease.Some? && row.lease.value.until > Last(Begun()).queue.clock && row.lease.value.cap > row.expiresAt
  {
    hide Inv, Enabled, Pull, StepMoves, Letters, Hundred;
    BegunValid();
    var r := Begun();
    RunMoves(r, 1);
    FirstPull(r.worlds[1], r.steps[1]);
  }

  lemma PullClock(q: Queue, s: Step)
    requires s.Pulling? && |s.receipts| >= 100 && |s.at.leases| >= 100
    requires s.at.retire == s.at.select == q.clock && forall i | 0 <= i < |s.at.leases| :: s.at.leases[i] == q.clock
    ensures Pull(q, s.policy, s.want, s.visibility, s.skipped, s.receipts, s.bad, s.at).queue.clock == q.clock
  {
  }

  /** A run in which a lease outlives its delivery's retention. */
  lemma ExtensionOutlives() returns (s: Run)
    ensures ValidRun(s) && 1 in Last(s).queue.rows && !Timely(Last(s).queue.rows[1])
  {
    hide Begun;
    BegunLease();
    s := Outlive(Begun(), 1);
  }
}
