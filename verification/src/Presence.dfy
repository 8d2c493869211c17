/**
 Ephemeral ownership (rust/src/presence.rs): one expiring key per agent of an application, and a
 sorted-set index over those keys. Redis expires keys to the millisecond and an expired key is
 invisible; the index stores whole seconds.
 */
module Presences {
  import opened Protocol

  /** Milliseconds. */
  type Clock = nat

  const EXPIRY_SECONDS: nat := 60

  function Second(now: Clock): nat {
    now / 1000
  }

  /** The key of an agent: its owner, and the last millisecond at which it is visible. */
  datatype Key = Key(owner: Owner, until: Clock)

  /** `index` gives each listed agent its score; `indexUntil` is when the whole set expires. */
  datatype Redis = Redis(clock: Clock, keys: map<Uuid, Key>, index: map<Uuid, nat>, indexUntil: Clock)

  predicate Alive(r: Redis, agent: Uuid, now: Clock) {
    agent in r.keys && now <= r.keys[agent].until
  }

  function Get(r: Redis, agent: Uuid, now: Clock): Option<Owner> {
    if Alive(r, agent, now) then Some(r.keys[agent].owner) else None
  }

  /** The index as it is seen at a time. */
  function Index(r: Redis, now: Clock): map<Uuid, nat> {
    if now <= r.indexUntil then r.index else map[]
  }

  /** The index without the scores up to the current second. */
  function Purged(r: Redis, now: Clock): map<Uuid, nat> {
    map a | a in Index(r, now) && Index(r, now)[a] > Second(now) :: Index(r, now)[a]
  }

  function Register(r: Redis, agent: Uuid, owner: Owner, now: Clock): Redis {
    Redis(now, r.keys[agent := Key(owner, now + EXPIRY_SECONDS * 1000)],
          Purged(r, now)[agent := Second(now) + EXPIRY_SECONDS], now + EXPIRY_SECONDS * 1000)
  }

  function Heartbeat(r: Redis, agent: Uuid, owner: Owner, now: Clock): Redis {
    if Get(r, agent, now) != Some(owner) then r.(clock := now)
    else Redis(now, r.keys[agent := Key(owner, now + EXPIRY_SECONDS * 1000)],
               Index(r, now)[agent := Second(now) + EXPIRY_SECONDS], now + EXPIRY_SECONDS * 1000)
  }

  function Remove(r: Redis, agent: Uuid, owner: Owner, now: Clock): Redis {
    if Get(r, agent, now) != Some(owner) then r.(clock := now)
    else r.(clock := now, keys := r.keys - {agent}, index := Index(r, now) - {agent})
  }

  function Purge(r: Redis, now: Clock): Redis {
    r.(clock := now, index := Purged(r, now))
  }

  /** The agents whose owners are listed. */
  function Listed(r: Redis, now: Clock): set<Uuid> {
    set a | a in Purged(r, now) && Alive(r, a, now)
  }

  // ---- the invariant -------------------------------------------------------------------

  /**
   An indexed agent has a key that ends in the second of its score; an agent missing from the index
   is in its last second.
   */
  ghost predicate AgentOk(r: Redis, a: Uuid) {
    && (a in r.index ==> a in r.keys && r.index[a] == Second(r.keys[a].until) && r.keys[a].until <= r.indexUntil)
    && (a in r.keys && a !in r.index ==> Second(r.keys[a].until) <= Second(r.clock))
    && (a in r.keys ==> r.keys[a].until <= r.clock + EXPIRY_SECONDS * 1000)
  }

  ghost predicate Consistent(r: Redis) {
    forall a :: AgentOk(r, a)
  }

  lemma Later(a: Clock, b: Clock)
    requires a <= b
    ensures Second(a) <= Second(b)
  {
  }

  lemma Fresh(now: Clock)
    ensures Second(now + EXPIRY_SECONDS * 1000) == Second(now) + EXPIRY_SECONDS
  {
  }

  lemma RegisterOk(r: Redis, agent: Uuid, owner: Owner, now: Clock)
    requires Consistent(r) && r.clock <= now
    ensures Consistent(Register(r, agent, owner, now))
  {
    Fresh(now);
    Later(r.clock, now);
    var after := Register(r, agent, owner, now);
    hide Second;
    forall a ensures AgentOk(after, a) {
      assert AgentOk(r, a);
      IndexedBefore(r, a, now);
    }
  }

  /** An indexed agent that a purge or an expired index drops is in its last second; one that stays expires in time. */
  lemma IndexedBefore(r: Redis, a: Uuid, now: Clock)
    requires Consistent(r) && r.clock <= now
    ensures a in r.keys && a !in Index(r, now) ==> Second(r.keys[a].until) <= Second(now)
    ensures a in r.keys && a !in Purged(r, now) ==> Second(r.keys[a].until) <= Second(now)
    ensures a in Index(r, now) ==>
      a in r.keys && Index(r, now)[a] == Second(r.keys[a].until) && r.keys[a].until <= r.indexUntil
          && now <= r.indexUntil
  {
    assert AgentOk(r, a);
    Later(r.clock, now);
    if a in r.keys && r.keys[a].until <= now {
      Later(r.keys[a].until, now);
    }
  }

  lemma HeartbeatOk(r: Redis, agent: Uuid, owner: Owner, now: Clock)
    requires Consistent(r) && r.clock <= now
    ensures Consistent(Heartbeat(r, agent, owner, now))
  {
    Fresh(now);
    Later(r.clock, now);
    var after := Heartbeat(r, agent, owner, now);
    hide Second;
    forall a ensures AgentOk(after, a) {
      assert AgentOk(r, a);
      IndexedBefore(r, a, now);
    }
  }

  lemma RemoveOk(r: Redis, agent: Uuid, owner: Owner, now: Clock)
    requires Consistent(r) && r.clock <= now
    ensures Consistent(Remove(r, agent, owner, now))
  {
    Later(r.clock, now);
    var after := Remove(r, agent, owner, now);
    hide Second;
    forall a ensures AgentOk(after, a) {
      assert AgentOk(r, a);
      IndexedBefore(r, a, now);
    }
  }

  lemma PurgeOk(r: Redis, now: Clock)
    requires Consistent(r) && r.clock <= now
    ensures Consistent(Purge(r, now))
  {
    var after := Purge(r, now);
    forall a ensures AgentOk(after, a) {
      assert AgentOk(r, a);
      IndexedBefore(r, a, now);
    }
  }

  // ---- the index against the keys ----------------------------------------------------------

  /** An agent is listed exactly when its key is visible and the clock has not entered the second in which it ends. */
  lemma ListedExactly(r: Redis, a: Uuid, now: Clock)
    requires Consistent(r) && r.clock <= now
    ensures a in Listed(r, now) <==> Alive(r, a, now) && Second(now) < Second(r.keys[a].until)
  {
    IndexedBefore(r, a, now);
  }

  /** The index therefore agrees with the keys exactly when no visible key is in its last second. */
  lemma IndexAgrees(r: Redis, now: Clock)
    requires Consistent(r) && r.clock <= now
    ensures (forall a :: a in Listed(r, now) <==> Alive(r, a, now))
        <==> (forall a | Alive(r, a, now) :: Second(now) < Second(r.keys[a].until))
  {
    forall a ensures a in Listed(r, now) <==> Alive(r, a, now) && Second(now) < Second(r.keys[a].until) {
      ListedExactly(r, a, now);
    }
  }

  /** On a whole-second clock an agent is listed exactly until the second its key ends. */
  lemma WholeSeconds(r: Redis, a: Uuid, now: Clock)
    requires Consistent(r) && r.clock <= now && now % 1000 == 0
    requires a in r.keys ==> r.keys[a].until % 1000 == 0
    ensures a in Listed(r, now) <==> a in r.keys && now < r.keys[a].until
  {
    ListedExactly(r, a, now);
  }

  /** It can disagree: registered at 0.999 s, visible until 60.999 s, but listed only until 60 s. */
  lemma LastSecondGap(owner: Owner)
    ensures var r := Register(Redis(0, map[], map[], 0), 1, owner, 999);
      Alive(r, 1, 60_500) && Get(r, 1, 60_500) == Some(owner) && 1 !in Listed(r, 60_500)
  {
    var r := Register(Redis(0, map[], map[], 0), 1, owner, 999);
    assert r.index[1] == 60 && r.keys[1].until == 60_999;
  }

  // ---- ownership ---------------------------------------------------------------------------

  datatype Op =
    | Registering(agent: Uuid, owner: Owner)
    | Beating(agent: Uuid, owner: Owner)
    | Removing(agent: Uuid, owner: Owner)
    | Listing

  function Apply(r: Redis, op: Op, now: Clock): Redis {
    match op
    case Registering(agent, owner) => Register(r, agent, owner, now)
    case Beating(agent, owner) => Heartbeat(r, agent, owner, now)
    case Removing(agent, owner) => Remove(r, agent, owner, now)
    case Listing => Purge(r, now)
  }

  /** The state after timed operations. */
  function Run(r: Redis, ops: seq<(Op, Clock)>): Redis {
    if ops == [] then r
    else
      var last := ops[|ops| - 1];
      Apply(Run(r, ops[..|ops| - 1]), last.0, last.1)
  }

  /** The time of the last operation. */
  function EndTime(start: Clock, ops: seq<(Op, Clock)>): Clock {
    if ops == [] then start else ops[|ops| - 1].1
  }

  /** Operations in the order of their times, from `start` on. */
  predicate Timed(start: Clock, ops: seq<(Op, Clock)>) {
    ops == [] ||
    var front, last := ops[..|ops| - 1], ops[|ops| - 1];
    Timed(start, front) && EndTime(start, front) <= last.1
  }

  lemma {:induction false} RunOk(r: Redis, ops: seq<(Op, Clock)>)
    requires Consistent(r) && Timed(r.clock, ops)
    ensures Consistent(Run(r, ops)) && Run(r, ops).clock == EndTime(r.clock, ops)
  {
    hide Consistent;
    if ops != [] {
      var front, last := ops[..|ops| - 1], ops[|ops| - 1];
      RunOk(r, front);
      var mid := Run(r, front);
      match last.0 {
        case Registering(agent, owner) => RegisterOk(mid, agent, owner, last.1);
        case Beating(agent, owner) => HeartbeatOk(mid, agent, owner, last.1);
        case Removing(agent, owner) => RemoveOk(mid, agent, owner, last.1);
        case Listing => PurgeOk(mid, last.1);
      }
    }
  }

  /**
   The plain meaning of presence: who owns an agent, and since when, by replaying the operations
   without any index or expiry.
   */
  function Tenure(agent: Uuid, ops: seq<(Op, Clock)>): Option<Key> {
    if ops == [] then None
    else
      var last := ops[|ops| - 1];
      var before := Tenure(agent, ops[..|ops| - 1]);
      var holds := before.Some? && last.1 <= before.value.until;
      match last.0
      case Registering(a, owner) => if a == agent then Some(Key(owner, last.1 + EXPIRY_SECONDS * 1000)) else before
      case Beating(a, owner) =>
        if a == agent && holds && before.value.owner == owner then Some(Key(owner, last.1 + EXPIRY_SECONDS * 1000))
            else before
      case Removing(a, owner) => if a == agent && holds && before.value.owner == owner then None else before
      case Listing => before
  }

  /** From an empty store, the key of an agent is its tenure after any operations. */
  lemma {:induction false} KeyIsTenure(r: Redis, agent: Uuid, ops: seq<(Op, Clock)>)
    requires r.keys == map[]
    ensures Tenure(agent, ops) == if agent in Run(r, ops).keys then Some(Run(r, ops).keys[agent]) else None
  {
    hide Purged, Index;
    if ops != [] {
      KeyIsTenure(r, agent, ops[..|ops| - 1]);
    }
  }

  /** After any operations, an agent is listed exactly while its tenure has a whole second left. */
  lemma ListedByTenure(r: Redis, agent: Uuid, ops: seq<(Op, Clock)>, now: Clock)
    requires r.keys == map[] && r.index == map[] && Timed(r.clock, ops) && Run(r, ops).clock <= now
    ensures Get(Run(r, ops), agent, now)
         == if Tenure(agent, ops).Some? && now <= Tenure(agent, ops).value.until
             then Some(Tenure(agent, ops).value.owner) else None
    ensures agent in Listed(Run(r, ops), now)
        <==> Tenure(agent, ops).Some? && Second(now) < Second(Tenure(agent, ops).value.until)
  {
    assert Consistent(r);
    hide Consistent, Run, Tenure;
    RunOk(r, ops);
    KeyIsTenure(r, agent, ops);
    ListedExactly(Run(r, ops), agent, now);
  }

  /** A heartbeat or removal of the agent by that owner. */
  predicate ActsFor(op: Op, agent: Uuid, owner: Owner) {
    op == Beating(agent, owner) || op == Removing(agent, owner)
  }

  /** The operations without those of a session for its agent. */
  function Without(ops: seq<(Op, Clock)>, agent: Uuid, owner: Owner): seq<(Op, Clock)> {
    if ops == [] then []
    else
      var front, last := Without(ops[..|ops| - 1], agent, owner), ops[|ops| - 1];
      if ActsFor(last.0, agent, owner) then front else front + [last]
  }

  ghost predicate NeverRegisters(ops: seq<(Op, Clock)>, agent: Uuid, owner: Owner) {
    forall i | 0 <= i < |ops| :: ops[i].0 != Registering(agent, owner)
  }

  /** The agent is not held in the name of this owner. */
  predicate NotHeldBy(agent: Uuid, owner: Owner, ops: seq<(Op, Clock)>) {
    Tenure(agent, ops).Some? ==> Tenure(agent, ops).value.owner != owner
  }

  lemma TenureSnoc(agent: Uuid, ops: seq<(Op, Clock)>, last: (Op, Clock), other: seq<(Op, Clock)>)
    requires Tenure(agent, ops) == Tenure(agent, other)
    ensures Tenure(agent, ops + [last]) == Tenure(agent, other + [last])
  {
    assert (ops + [last])[..|ops|] == ops && (other + [last])[..|other|] == other;
  }

  /** A session that does not hold the agent neither changes its tenure nor gains it without registering. */
  lemma PowerlessStep(agent: Uuid, former: Owner, ops: seq<(Op, Clock)>, last: (Op, Clock), other: Uuid)
    requires NotHeldBy(agent, former, ops) && last.0 != Registering(agent, former)
    ensures NotHeldBy(agent, former, ops + [last])
    ensures ActsFor(last.0, agent, former) ==> Tenure(other, ops + [last]) == Tenure(other, ops)
  {
    assert (ops + [last])[..|ops|] == ops;
  }

  /** Once an agent is not held by a former session, nothing that session does changes anybody's tenure. */
  lemma {:induction false} FormerChangesNothing(before: seq<(Op, Clock)>, ops: seq<(Op, Clock)>, agent: Uuid,
                                                former: Owner, other: Uuid)
    requires NotHeldBy(agent, former, before) && NeverRegisters(ops, agent, former)
    ensures NotHeldBy(agent, former, before + ops)
    ensures Tenure(other, before + ops) == Tenure(other, before + Without(ops, agent, former))
    decreases |ops|
  {
    hide Tenure;
    if ops == [] {
      assert before + ops == before;
    } else {
      var front, last := ops[..|ops| - 1], ops[|ops| - 1];
      assert before + ops == (before + front) + [last];
      FormerChangesNothing(before, front, agent, former, other);
      PowerlessStep(agent, former, before + front, last, other);
      var kept := Without(front, agent, former);
      if !ActsFor(last.0, agent, former) {
        assert before + (kept + [last]) == (before + kept) + [last];
        TenureSnoc(other, before + front, last, before + kept);
      }
    }
  }

  lemma TimedSnoc(start: Clock, ops: seq<(Op, Clock)>, last: (Op, Clock))
    ensures Timed(start, ops + [last]) <==> Timed(start, ops) && EndTime(start, ops) <= last.1
    ensures EndTime(start, ops + [last]) == last.1
  {
    assert (ops + [last])[..|ops|] == ops;
  }

  lemma {:induction false} WithoutTimed(start: Clock, before: seq<(Op, Clock)>, ops: seq<(Op, Clock)>, agent: Uuid,
                                        owner: Owner)
    requires Timed(start, before + ops)
    ensures Timed(start, before + Without(ops, agent, owner))
    ensures EndTime(start, before + Without(ops, agent, owner)) <= EndTime(start, before + ops)
    decreases |ops|
  {
    hide Timed, EndTime;
    if ops == [] {
      assert before + ops == before;
    } else {
      var front, last := ops[..|ops| - 1], ops[|ops| - 1];
      var kept := Without(front, agent, owner);
      assert before + ops == (before + front) + [last] && before + (kept + [last]) == (before + kept) + [last];
      TimedSnoc(start, before + front, last);
      TimedSnoc(start, before + kept, last);
      WithoutTimed(start, before, front, agent, owner);
    }
  }

  /**
   A superseded session is powerless: once the agent is not its own and it never registers again,
   striking all its heartbeats and removals from the history changes neither the owner nor the
   listing of any agent, at any later time.
   */
  lemma SupersededIsPowerless(r: Redis, before: seq<(Op, Clock)>, ops: seq<(Op, Clock)>, agent: Uuid, former: Owner,
                              other: Uuid, now: Clock)
    requires r.keys == map[] && r.index == map[] && Timed(r.clock, before + ops) && Run(r, before + ops).clock <= now
    requires NotHeldBy(agent, former, before) && NeverRegisters(ops, agent, former)
    ensures var all, kept := Run(r, before + ops), Run(r, before + Without(ops, agent, former));
      && Get(all, other, now) == Get(kept, other, now)
      && (other in Listed(all, now) <==> other in Listed(kept, now))
  {
    assert Consistent(r);
    hide Consistent, Run, Tenure, Listed, Get, NotHeldBy;
    FormerChangesNothing(before, ops, agent, former, other);
    WithoutTimed(r.clock, before, ops, agent, former);
    RunOk(r, before + ops);
    RunOk(r, before + Without(ops, agent, former));
    ListedByTenure(r, other, before + ops, now);
    ListedByTenure(r, other, before + Without(ops, agent, former), now);
  }

  /** The presence keys and index of one application. */
  class Presence {
    var clock: Clock
    var keys: map<Uuid, Key>
    var index: map<Uuid, nat>
    var indexUntil: Clock

    constructor (now: Clock)
      ensures State() == Redis(now, map[], map[], 0) && Consistent(State())
    {
      clock, keys, index, indexUntil := now, map[], map[], 0;
    }

    ghost function State(): Redis
      reads this
    {
      Redis(clock, keys, index, indexUntil)
    }

    /** SET with expiry, purge, ZADD, and a new expiry for the index. */
    method RegisterOwner(agent: Uuid, owner: Owner, now: Clock)
      requires Consistent(State()) && clock <= now
      modifies this
      ensures State() == Register(old(State()), agent, owner, now) && Consistent(State())
    {
      RegisterOk(State(), agent, owner, now);
      hide Consistent;
      keys := keys[agent := Key(owner, now + EXPIRY_SECONDS * 1000)];
      var seen := if now <= indexUntil then index else map[];
      seen := map a | a in seen && seen[a] > now / 1000 :: seen[a];
      index := seen[agent := now / 1000 + EXPIRY_SECONDS];
      indexUntil := now + EXPIRY_SECONDS * 1000;
      clock := now;
    }

    method OwnerOf(agent: Uuid, now: Clock) returns (r: Option<Owner>)
      ensures r == Get(State(), agent, now)
    {
      if agent in keys && now <= keys[agent].until {
        return Some(keys[agent].owner);
      }
      return None;
    }

    method HeartbeatOwner(agent: Uuid, owner: Owner, now: Clock) returns (r: Result<(), DeliveryError>)
      requires Consistent(State()) && clock <= now
      modifies this
      ensures State() == Heartbeat(old(State()), agent, owner, now) && Consistent(State())
      ensures r == if Get(old(State()), agent, now) == Some(owner) then Ok(()) else Err(Conflict)
    {
      HeartbeatOk(State(), agent, owner, now);
      hide Consistent;
      clock := now;
      if agent !in keys || now > keys[agent].until || keys[agent].owner != owner {
        return Err(Conflict);
      }
      keys := keys[agent := Key(owner, now + EXPIRY_SECONDS * 1000)];
      var seen := if now <= indexUntil then index else map[];
      index := seen[agent := now / 1000 + EXPIRY_SECONDS];
      indexUntil := now + EXPIRY_SECONDS * 1000;
      return Ok(());
    }

    method RemoveOwner(agent: Uuid, owner: Owner, now: Clock)
      requires Consistent(State()) && clock <= now
      modifies this
      ensures State() == Remove(old(State()), agent, owner, now) && Consistent(State())
    {
      RemoveOk(State(), agent, owner, now);
      hide Consistent;
      clock := now;
      if agent in keys && now <= keys[agent].until && keys[agent].owner == owner {
        keys := keys - {agent};
        index := (if now <= indexUntil then index else map[]) - {agent};
      }
    }

    /** `order` is the answer of ZRANGE after the purge: the remaining agents, each once. */
    method Owners(order: seq<Uuid>, now: Clock) returns (owners: seq<Owner>, ghost agents: seq<Uuid>)
      requires Consistent(State()) && clock <= now
      requires (forall a :: a in order <==> a in Purged(State(), now))
      requires forall i, j | 0 <= i < j < |order| :: order[i] != order[j]
      modifies this
      ensures State() == Purge(old(State()), now) && Consistent(State())
      ensures |owners| == |agents| && forall i | 0 <= i < |agents| :: Get(State(), agents[i], now) == Some(owners[i])
      ensures forall i, j | 0 <= i < j < |agents| :: agents[i] != agents[j]
      ensures forall a :: a in agents <==> Alive(old(State()), a, now) && Second(now) < Second(old(keys)[a].until)
    {
      ghost var r := State();
      PurgeOk(r, now);
      forall a ensures a in Listed(r, now) <==> Alive(r, a, now) && Second(now) < Second(keys[a].until) {
        ListedExactly(r, a, now);
      }
      hide Consistent, Second;
      index := Purged(Redis(clock, keys, index, indexUntil), now);
      clock := now;
      owners, agents := [], [];
      var n := 0;
      while n < |order|
        invariant 0 <= n <= |order|
        invariant |owners| == |agents| && forall i | 0 <= i < |agents| ::
            Get(State(), agents[i], now) == Some(owners[i])
        invariant forall i, j | 0 <= i < j < |agents| :: agents[i] != agents[j]
        invariant forall a :: a in agents <==> a in order[..n] && Alive(r, a, now)
        invariant State() == Purge(r, now) && Consistent(State())
      {
        var a := order[n];
        assert order[..n + 1] == order[..n] + [a] && a !in order[..n];
        if a in keys && now <= keys[a].until {
          owners, agents := owners + [keys[a].owner], agents + [a];
        }
        n := n + 1;
      }
      assert order[..n] == order;
    }
  }
}
