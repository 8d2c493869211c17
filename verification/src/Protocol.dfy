/** Wire constants, principals and leases (rust/src/protocol.rs) with the authorisation rule (rust/src/identity.rs). */
module Protocol {

  type Uuid = nat

  /** Timestamps and durations, in microseconds (PostgreSQL's resolution). */
  type Time = int

  type Bytes = seq<int>

  const SECOND: Time := 1_000_000
  const RETENTION: Time := 604_800 * SECOND
  const LEASE: Time := 60 * SECOND
  const MAX_RUNTIME: Time := 300 * SECOND
  const MAX_ATTEMPTS: int := 5
  const MAX_IN_FLIGHT: int := 16
  const MAX_BODY_BYTES: int := 1_048_576
  const MAX_OUTSTANDING_DELIVERIES: int := 10_000
  const MAX_OUTSTANDING_BYTES: int := 104_857_600

  datatype Option<+T> = None | Some(value: T)

  datatype Result<+T, +E> = Ok(value: T) | Err(error: E)

  /** The pause after failed attempt number `attempt`; zero outside the table. */
  function RetryDelay(attempt: int): Time {
    match attempt
    case 1 => 1 * SECOND
    case 2 => 5 * SECOND
    case 3 => 30 * SECOND
    case 4 => 120 * SECOND
    case _ => 0
  }

  function Min(a: int, b: int): (r: int)
    ensures r <= a && r <= b && (r == a || r == b)
  {
    if a <= b then a else b
  }

  function Max(a: int, b: int): (r: int)
    ensures r >= a && r >= b && (r == a || r == b)
  {
    if a >= b then a else b
  }

  /** The value in the range nearest to `x`. */
  function Clamp(x: int, low: int, high: int): (r: int)
    ensures low <= high ==> low <= r <= high && (low <= x <= high ==> r == x)
    ensures low <= high ==> (x < low ==> r == low) && (x > high ==> r == high)
  {
    if x < low then low else if x > high then high else x
  }

  /** Bytes of a character in UTF-8. */
  function Utf8Width(c: char): nat {
    if c < '\U{80}' then 1 else if c < '\U{800}' then 2 else if c < '\U{10000}' then 3 else 4
  }

  function Utf8Length(s: string): nat {
    if s == "" then 0 else Utf8Width(s[0]) + Utf8Length(s[1..])
  }

  datatype Principal =
    | SystemAdmin(userId: Uuid)
    | WorkspaceOwner(userId: Uuid, workspace: Uuid)
    | Application(workspace: Uuid, app: Uuid, keyId: Uuid)
    | Agent(workspace: Uuid, app: Uuid, agent: Uuid, keyId: Uuid)

  datatype Action =
    | ManageApps
    | ManageCredentials
    | Connect(app: Uuid)
    | Publish(app: Uuid)
    | Deliver(app: Uuid)

  predicate Authorized(principal: Principal, workspace: Uuid, action: Action) {
    match principal
    case SystemAdmin(_) => true
    case WorkspaceOwner(_, own) => own == workspace
    case Application(own, app, _) =>
      own == workspace && (action == Connect(app) || action == Publish(app))
    case Agent(own, app, _, _) =>
      own == workspace && (action == Connect(app) || action == Deliver(app))
  }

  datatype DeliveryLease = DeliveryLease(delivery: Uuid, event: Uuid, token: Uuid, generation: int, attempt: int)

  datatype DeliveryError = Forbidden | InvalidInput | Conflict | Gone | TooManyRequests | Unavailable | Internal

  /** The identity a presence key stores for an agent. */
  datatype Owner = Owner(gateway: Uuid, session: Uuid)
}
