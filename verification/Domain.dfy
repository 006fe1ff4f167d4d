/** The aggregates of the identity service: users, sessions, outbox events and the cached session. */
module Domain {
  import opened Basics

  type Bytes16 = b: Bytes | |b| == 16 witness [0, 0, 0, 0, 0, 0, 0, 0, 0, 0, 0, 0, 0, 0, 0, 0]

  /** A UUID is sixteen bytes. */
  datatype Uuid = Uuid(bytes: Bytes16)

  const NIL := Uuid([0, 0, 0, 0, 0, 0, 0, 0, 0, 0, 0, 0, 0, 0, 0, 0])

  /** A tenant identifier wraps a UUID; the zero value is invalid. */
  datatype TenantId = TenantId(value: Uuid) {
    predicate IsZero() { value == NIL }
  }

  datatype Status = Active | PendingActivation | Suspended | Rejected

  const PASSWORD_MIN_LEN := 12
  const PASSWORD_MAX_LEN := 256

  predicate PasswordPolicy(raw: Bytes) {
    PASSWORD_MIN_LEN <= |raw| <= PASSWORD_MAX_LEN
  }

  datatype User = User(
    id: Uuid, tenant: TenantId, email: string, passwordHash: string,
    status: Status, createdAt: int, updatedAt: int)

  function NewUser(id: Uuid, tenant: TenantId, email: string, passwordHash: string, now: int): User {
    User(id, tenant, email, passwordHash, Active, now, now)
  }

  /** Instants are nanoseconds on one integer clock. */
  datatype Session = Session(
    id: Uuid, tenant: TenantId, user: Uuid, tokenHash: Bytes,
    createdAt: int, expiresAt: int, revokedAt: Option<int>) {

    predicate IsActive(now: int) {
      revokedAt.None? && now < expiresAt
    }
  }

  function NewSession(id: Uuid, tenant: TenantId, user: Uuid, tokenHash: Bytes, now: int, expiresAt: int): Session {
    Session(id, tenant, user, tokenHash, now, expiresAt, None)
  }

  /** What the write-through cache keeps for a token hash. */
  datatype CachedSession = CachedSession(session: Uuid, user: Uuid, tenant: TenantId, expiresAt: int)

  function PayloadOf(s: Session): CachedSession {
    CachedSession(s.id, s.user, s.tenant, s.expiresAt)
  }

  /** The JSON payload of an outbox event; the constructor names the topic. */
  datatype Payload =
    | UserCreated(user: Uuid, tenant: TenantId, email: string, at: int)
    | SessionCreated(session: Uuid, user: Uuid, tenant: TenantId, at: int)
    | SessionRevoked(session: Uuid, user: Uuid, tenant: TenantId, at: int)

  datatype Event = Event(tenant: TenantId, aggregate: Uuid, payload: Payload, at: int)

  /** What the session middleware puts into the request context. */
  datatype Ctx = Ctx(user: Uuid, session: Uuid, tenant: TenantId, tokenHashHex: string)

  const TOKEN_MIN_LEN := 32
  const TOKEN_MAX_LEN := 128

  /** Length bounds of an opaque session token. */
  predicate TokenValid(token: string) {
    TOKEN_MIN_LEN <= |token| <= TOKEN_MAX_LEN
  }
}
