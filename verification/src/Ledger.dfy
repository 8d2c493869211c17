/**
 The invariant of one delivery: the shape of its attempt ledger, of its lease, of its outbox
 row and of its response, and the proof that every write to the delivery keeps it.
 */
module Ledger {
  import opened Protocol
  import opened Tables
  import opened Transactions

  predicate Failed(a: Attempt) {
    a.finishedAt.Some? && (a.outcome == Some(RetryableFailure) || a.outcome == Some(LeaseExpired))
  }

  predicate Unfinished(a: Attempt) {
    a.finishedAt.None? && a.outcome.None?
  }

  /** How the newest attempt row may look in each state. */
  predicate LastAttempt(state: State, a: Attempt) {
    match state
    case Pending => Failed(a)
    case RetryWait => Failed(a)
    case InFlight => Unfinished(a)
    case Succeeded => a.finishedAt.Some? && a.outcome == Some(Success)
    case Dlq => Failed(a)
    case Expired => Failed(a) || Unfinished(a)
    case Cancelled => false
  }

  /** The attempt rows are numbered 1..count; all but the newest are finished failures. */
  ghost predicate Numbered(job: Job) {
    && 0 <= job.row.count <= MAX_ATTEMPTS
    && (forall n :: n in job.attempts <==> 1 <= n <= job.row.count)
    && (forall n | 1 <= n < job.row.count :: Failed(job.attempts[n]))
    && (job.row.count >= 1 ==> LastAttempt(job.row.state, job.attempts[job.row.count]))
    && (job.row.state in {InFlight, RetryWait, Succeeded, Dlq} ==> job.row.count >= 1)
    && (job.row.state in {Pending, RetryWait} ==> job.row.count < MAX_ATTEMPTS)
    && (job.row.state == Dlq ==> job.row.count == MAX_ATTEMPTS)
  }

  /** The instant before which attempt `n + 1` may not start. */
  function ReadyAt(job: Job, n: int): Time
    requires n in job.attempts && job.attempts[n].finishedAt.Some?
  {
    job.attempts[n].finishedAt.value + RetryDelay(n)
  }

  /** Every later attempt started no earlier than its predecessor's finish plus the retry delay. */
  ghost predicate Spaced(job: Job)
    requires Numbered(job)
  {
    forall m | 2 <= m <= job.row.count :: job.attempts[m].startedAt >= ReadyAt(job, m - 1)
  }

  /** What allows the next attempt: a stored due time, or a due time already passed. */
  predicate Gated(job: Job, now: Time)
    requires Numbered(job)
  {
    match job.row.state
    case Pending => job.row.nextAt.None? && (job.row.count >= 1 ==> ReadyAt(job, job.row.count) <= now)
    case RetryWait => job.row.nextAt == Some(ReadyAt(job, job.row.count))
    case _ => true
  }

  /** The lease columns agree with the open attempt row and stay inside the three caps. */
  predicate LeaseShape(job: Job, event: Event, now: Time)
    requires Numbered(job)
  {
    job.row.state == InFlight ==>
      var a := job.attempts[job.row.count];
      && job.row.token == Some(a.token) && job.row.agent == Some(a.agent)
      && job.row.startedAt == Some(a.startedAt) && job.row.leaseUntil == Some(a.leaseUntil)
      && a.startedAt <= now
      && a.leaseUntil <= now + LEASE
      && a.leaseUntil <= a.startedAt + MAX_RUNTIME
      && a.leaseUntil <= event.expiresAt
  }

  predicate OutboxShape(job: Job) {
    && (job.row.terminalAt.Some? <==> Terminal(job.row.state))
    && (job.outbox.sentAt.None? || job.outbox.discardedAt.None?)
    && (job.outbox.discardedAt.Some? ==> job.row.terminalAt.Some?)
    && (job.row.terminalAt.Some? ==> !job.outbox.Waiting())
  }

  /** A response result is the candidate of the attempt that succeeded; Answered means it came in time. */
  predicate ResponseShape(job: Job)
    requires Numbered(job)
  {
    var r := job.response;
    && (r.state == Answered ==> r.result.Some?)
    && (r.result.Some? <==> r.answeredAt.Some?)
    && (r.result.Some? ==>
          && job.row.state == Succeeded && r.state != Open
          && job.attempts[job.row.count].token in job.candidates
          && job.candidates[job.attempts[job.row.count].token] == r.result.value)
    && (r.state == Answered && r.deadline.Some? ==> r.answeredAt.value < r.deadline.value)
  }

  ghost predicate JobOk(job: Job, event: Event, now: Time) {
    && Numbered(job) && Spaced(job) && Gated(job, now) && LeaseShape(job, event, now)
    && OutboxShape(job) && ResponseShape(job)
  }

  // ---- preservation -----------------------------------------------------------

  lemma Later(job: Job, event: Event, now: Time, later: Time)
    requires JobOk(job, event, now) && now <= later
    ensures JobOk(job, event, later)
  {
  }

  lemma FreshOk(id: Uuid, e: Event, target: Uuid, generation: int, policy: Policy, created: Time, now: Time)
    ensures JobOk(NewJob(id, e, target, generation, policy, created), e, now)
  {
  }

  /** Retention expiry applies in every open state and leaves the ledger as it is. */
  lemma ExpireOk(job: Job, event: Event, at: Stamp, now: Time)
    requires JobOk(job, event, now) && now <= at.write && job.row.terminalAt.None?
    ensures UpdateRow(job, job.row.(state := Expired), at).Some?
    ensures JobOk(UpdateRow(job, job.row.(state := Expired), at).value, event, at.write)
  {
  }

  lemma CancelOk(job: Job, event: Event, at: Stamp, now: Time)
    requires JobOk(job, event, now) && now <= at.write && job.row.state == Pending && job.row.count == 0
    ensures Transactions.Cancelled(job, at).Some?
    ensures JobOk(Transactions.Cancelled(job, at).value, event, at.write)
  {
  }

  lemma TimeoutOk(job: Job, event: Event, later: Time, now: Time)
    requires JobOk(job, event, now) && now <= later && job.response.state == Open
    ensures JobOk(job.(response := job.response.(state := TimedOut)), event, later)
  {
  }

  /** One more attempt row keeps the ledger in shape if its predecessor's delay has passed. */
  lemma NumberedAppend(job: Job, after: Job, a: Attempt)
    requires Numbered(job) && Spaced(job) && job.row.state in {Pending, RetryWait} && Unfinished(a)
    requires after.attempts == job.attempts[job.row.count + 1 := a]
    requires after.row.count == job.row.count + 1 && after.row.state == InFlight
    requires job.row.count >= 1 ==> a.startedAt >= ReadyAt(job, job.row.count)
    ensures Numbered(after) && Spaced(after)
  {
    assert forall n | n in job.attempts :: after.attempts[n] == job.attempts[n];
  }

  /** What a claim writes. */
  lemma LeasedIs(job: Job, event: Event, agent: Uuid, token: Uuid, at: Stamp)
    requires job.row.terminalAt.None? && job.row.count < MAX_ATTEMPTS && job.row.count + 1 !in job.attempts
    ensures var n, until := job.row.count + 1, Min(at.write + LEASE, event.expiresAt);
      Leased(job, event, agent, token, at)
      == Some(job.(attempts := job.attempts[n := Attempt(token, agent, at.write, until, None, None)],
                   row := job.row.(state := InFlight, count := n, token := Some(token), agent := Some(agent),
                                   startedAt := Some(at.write), leaseUntil := Some(until), nextAt := None)))
  {
  }

  /** A claim opens attempt count + 1, never before the retry delay of attempt `count` has passed. */
  lemma LeasedOk(job: Job, event: Event, agent: Uuid, token: Uuid, at: Stamp, now: Time)
    requires JobOk(job, event, now) && ValidStamp(now, at)
    requires job.row.state in {Pending, RetryWait} && job.row.Due(at.read) && job.row.terminalAt.None?
    ensures Leased(job, event, agent, token, at).Some?
    ensures JobOk(Leased(job, event, agent, token, at).value, event, at.write)
  {
    hide Leased, RetryDelay;
    LeasedIs(job, event, agent, token, at);
    var after, n := Leased(job, event, agent, token, at).value, job.row.count + 1;
    NumberedAppend(job, after, after.attempts[n]);
    hide Numbered, Spaced;
  }

  /** Finishing the open attempt keeps the ledger in shape. */
  lemma NumberedFinish(job: Job, after: Job, a: Attempt)
    requires Numbered(job) && Spaced(job) && job.row.state == InFlight
    requires after.attempts == job.attempts[job.row.count := a] && after.row.count == job.row.count
    requires a.startedAt == job.attempts[job.row.count].startedAt && LastAttempt(after.row.state, a)
    requires after.row.state in {RetryWait, Succeeded, Dlq}
    requires after.row.state == RetryWait ==> job.row.count < MAX_ATTEMPTS
    requires after.row.state == Dlq ==> job.row.count == MAX_ATTEMPTS
    ensures Numbered(after) && Spaced(after) && after.attempts.Keys == job.attempts.Keys
  {
    assert forall n | n in job.attempts && n != job.row.count :: after.attempts[n] == job.attempts[n];
  }

  lemma FinishLedger(job: Job, event: Event, outcome: AttemptOutcome, at: Stamp)
    requires Numbered(job) && Spaced(job) && job.row.state == InFlight && job.row.terminalAt.None?
    requires outcome == LeaseExpired || (job.row.LeaseLive(at.write) && event.expiresAt > at.write)
    ensures var r := FinishAttempt(job, event, job.row.count, outcome, at);
      r.Some? && Numbered(r.value) && Spaced(r.value) && r.value.attempts.Keys == job.attempts.Keys
  {
    var n := job.row.count;
    var a := job.attempts[n].(outcome := Some(outcome), finishedAt := Some(at.write));
    assert FinishedAttempts(job.attempts, n, outcome, at.write) == job.attempts[n := a];
    var after := FinishAttempt(job, event, n, outcome, at).value;
    assert after.attempts == job.attempts[n := a] && after.row.count == n
        && after.row.state == SettledState(n, outcome);
    hide FinishAttempt;
    NumberedFinish(job, after, a);
  }

  /** Columns a settlement cannot disturb. */
  lemma FinishFields(job: Job, event: Event, outcome: AttemptOutcome, at: Stamp)
    requires job.row.state == InFlight && job.row.count in job.attempts && job.attempts[job.row.count].finishedAt.None?
    requires job.row.terminalAt.None? && FinishAttempt(job, event, job.row.count, outcome, at).Some?
    ensures var after := FinishAttempt(job, event, job.row.count, outcome, at).value; var n := job.row.count;
      && after.row.state == SettledState(n, outcome) && after.row.count == n && n in after.attempts
      && after.attempts[n] == job.attempts[n].(outcome := Some(outcome), finishedAt := Some(at.write))
      && (after.row.state == RetryWait ==> after.row.nextAt == Some(at.write + RetryDelay(n)))
      && (after.row.terminalAt.Some? <==> Terminal(after.row.state))
      && (after.outbox.sentAt == job.outbox.sentAt)
      && (after.outbox.discardedAt == job.outbox.discardedAt || (after.row.terminalAt.Some? && job.outbox.sentAt.None?))
      && after.candidates == job.candidates
      && (after.response == job.response
          || (&& after.row.state == Succeeded && job.row.token.Some? && job.row.token.value in job.candidates
              && after.response == Promoted(job.response, job.candidates[job.row.token.value], at.write)))
  {
  }

  lemma FinishOk(job: Job, event: Event, outcome: AttemptOutcome, at: Stamp, now: Time)
    requires JobOk(job, event, now) && now <= at.write && job.row.state == InFlight
    requires outcome == LeaseExpired || (job.row.LeaseLive(at.write) && event.expiresAt > at.write)
    ensures FinishAttempt(job, event, job.row.count, outcome, at).Some?
    ensures JobOk(FinishAttempt(job, event, job.row.count, outcome, at).value, event, at.write)
  {
    FinishLedger(job, event, outcome, at);
    FinishFields(job, event, outcome, at);
    hide Numbered, Spaced, FinishAttempt, RetryDelay;
  }

  /** Striking the open attempt keeps the ledger in shape. */
  lemma NumberedStrike(job: Job, after: Job)
    requires Numbered(job) && Spaced(job) && job.row.state == InFlight
    requires after.attempts == job.attempts - {job.row.count} && after.row.count == job.row.count - 1
    requires after.row.state == Pending
    ensures Numbered(after) && Spaced(after)
    ensures after.row.count >= 1 ==> job.attempts[job.row.count].startedAt >= ReadyAt(after, after.row.count)
  {
    assert forall n | n in after.attempts :: after.attempts[n] == job.attempts[n];
  }

  lemma UnclaimedOk(job: Job, event: Event, lease: DeliveryLease, at: Stamp, now: Time)
    requires JobOk(job, event, now) && now <= at.write
    requires job.row.state == InFlight && job.row.count == lease.attempt
    ensures Unclaimed(job, lease, at).Some?
    ensures JobOk(Unclaimed(job, lease, at).value, event, at.write)
  {
    var after := Unclaimed(job, lease, at).value;
    NumberedStrike(job, after);
    hide Numbered, Spaced, RetryDelay;
  }

  lemma ExtendedOk(job: Job, event: Event, at: Stamp, now: Time)
    requires JobOk(job, event, now) && now <= at.write && job.row.state == InFlight
    ensures Extended(job, event, at).Some?
    ensures JobOk(Extended(job, event, at).value, event, at.write)
  {
    var after := Extended(job, event, at).value;
    assert forall n | n in job.attempts && n != job.row.count :: after.attempts[n] == job.attempts[n];
  }

  // ---- history ------------------------------------------------------------------

  /** The attempt row with this token is in the ledger. */
  ghost predicate HasToken(job: Job, token: Uuid) {
    exists n :: n in job.attempts && job.attempts[n].token == token
  }

  /**
   What a write does to the history of a delivery: attempt rows appear only under `gained`
   tokens and disappear only under `lost` ones, a lease opens only under a gained token and is
   otherwise left as it was or, by a heartbeat (`beat`), only given another end, the outbox row
   is not marked sent, staged candidates are never replaced, a response result is final and the
   response policy stays.
   */
  ghost predicate Carries(job: Job, next: Job, gained: set<Uuid>, lost: set<Uuid>, beat: bool) {
    && next.outbox.sentAt == job.outbox.sentAt
    && (forall token | HasToken(job, token) && token !in lost :: HasToken(next, token))
    && (forall token | HasToken(next, token) :: HasToken(job, token) || token in gained)
    && (next.row.state == InFlight ==>
          || (job.row.state == InFlight && next.row == job.row)
          || (beat && job.row.state == InFlight && next.row == job.row.(leaseUntil := next.row.leaseUntil))
          || (next.row.token.Some? && next.row.token.value in gained))
    && (forall token | token in job.candidates ::
          token in next.candidates && next.candidates[token] == job.candidates[token])
    && (forall token | token in next.candidates :: token in job.candidates || HasToken(job, token))
    && (job.response.result.Some? ==> next.response.result == job.response.result)
    && next.response.policy == job.response.policy
  }

  lemma LeasedCarries(job: Job, event: Event, agent: Uuid, token: Uuid, at: Stamp)
    requires Leased(job, event, agent, token, at).Some?
    ensures Carries(job, Leased(job, event, agent, token, at).value, {token}, {}, false)
  {
    var next := Leased(job, event, agent, token, at).value;
    forall t | HasToken(job, t) ensures HasToken(next, t) {
      var n :| n in job.attempts && job.attempts[n].token == t;
      assert n in next.attempts && next.attempts[n].token == t;
    }
  }

  lemma FinishCarries(job: Job, event: Event, n: int, outcome: AttemptOutcome, at: Stamp)
    requires FinishAttempt(job, event, n, outcome, at).Some?
    ensures Carries(job, FinishAttempt(job, event, n, outcome, at).value, {}, {}, false)
  {
    var next := FinishAttempt(job, event, n, outcome, at).value;
    SameTokens(job, next);
  }

  lemma SameTokens(job: Job, next: Job)
    requires forall n :: n in job.attempts <==> n in next.attempts
    requires forall n | n in job.attempts :: next.attempts[n].token == job.attempts[n].token
    ensures forall t :: HasToken(job, t) <==> HasToken(next, t)
  {
    forall t ensures HasToken(job, t) <==> HasToken(next, t) {
      if HasToken(job, t) {
        var n :| n in job.attempts && job.attempts[n].token == t;
        assert n in next.attempts && next.attempts[n].token == t;
      }
      if HasToken(next, t) {
        var n :| n in next.attempts && next.attempts[n].token == t;
        assert n in job.attempts && job.attempts[n].token == t;
      }
    }
  }

  lemma UnclaimedCarries(job: Job, lease: DeliveryLease, at: Stamp)
    requires lease.attempt in job.attempts && job.attempts[lease.attempt].token == lease.token
    requires Unclaimed(job, lease, at).Some?
    ensures Carries(job, Unclaimed(job, lease, at).value, {}, {lease.token}, false)
  {
    var next := Unclaimed(job, lease, at).value;
    forall t | HasToken(job, t) && t != lease.token ensures HasToken(next, t) {
      var n :| n in job.attempts && job.attempts[n].token == t;
      assert n in next.attempts && next.attempts[n].token == t;
    }
    forall t | HasToken(next, t) ensures HasToken(job, t) {
      var n :| n in next.attempts && next.attempts[n].token == t;
      assert n in job.attempts && job.attempts[n].token == t;
    }
  }

  lemma ExtendedCarries(job: Job, event: Event, at: Stamp)
    requires job.row.startedAt.Some? && Extended(job, event, at).Some?
    ensures Carries(job, Extended(job, event, at).value, {}, {}, true)
  {
    SameTokens(job, Extended(job, event, at).value);
  }

  /** Writes that leave the ledger and the candidates alone and do not open a lease. */
  lemma QuietCarries(job: Job, next: Job)
    requires next.attempts == job.attempts && next.candidates == job.candidates
    requires next.outbox.sentAt == job.outbox.sentAt
    requires next.row.state == InFlight ==> next.row == job.row
    requires next.response.policy == job.response.policy
    requires job.response.result.Some? ==> next.response.result == job.response.result
    ensures Carries(job, next, {}, {}, false)
  {
    SameTokens(job, next);
  }
}
