/**
  The four tables of auth-service as one finite map of rows. The constructor of a key names the
  table, its arguments are the primary key.
 */
module Tables {
  import opened Wrappers

  type Uuid = nat

  /** Microseconds, the resolution of TIMESTAMPTZ. */
  type Time = int

  /** SHA-256 as a free constructor: no two texts share a digest. */
  datatype Digest = Sha256(text: string)

  datatype Status = PendingRegistration | EmailVerified | RegistrationFailed

  datatype Credential = Credential(userId: Uuid, email: string, username: string, passwordHash: string,
                                   emailVerified: bool, status: Status, createdAt: Time, updatedAt: Time)

  datatype Code = Code(id: Uuid, userId: Uuid, tokenHash: Digest, expiresAt: Time, usedAt: Option<Time>,
                       createdAt: Time)

  datatype Token = Token(id: Uuid, userId: Uuid, tokenHash: Digest, expiresAt: Time, revokedAt: Option<Time>,
                         createdAt: Time)

  datatype Role = Role(userId: Uuid, role: string, createdAt: Time)

  datatype Row =
    | CredentialRow(credential: Credential)
    | CodeRow(code: Code)
    | TokenRow(token: Token)
    | RoleRow(role: Role)

  datatype Key =
    | CredentialKey(userId: Uuid)
    | CodeKey(id: Uuid)
    | TokenKey(id: Uuid)
    | RoleKey(userId: Uuid, role: string)

  function KeyOf(row: Row): Key {
    match row
    case CredentialRow(c) => CredentialKey(c.userId)
    case CodeRow(c) => CodeKey(c.id)
    case TokenRow(t) => TokenKey(t.id)
    case RoleRow(r) => RoleKey(r.userId, r.role)
  }

  /** The user a row belongs to: its primary key or its foreign key to the credentials. */
  function UserOf(row: Row): Uuid {
    match row
    case CredentialRow(c) => c.userId
    case CodeRow(c) => c.userId
    case TokenRow(t) => t.userId
    case RoleRow(r) => r.userId
  }

  ghost predicate WellKeyed(m: map<Key, Row>) {
    forall k :: k in m ==> KeyOf(m[k]) == k
  }

  type Rows = m: map<Key, Row> | WellKeyed(m) witness map[]

  // ---- set-oriented changes ----

  /** What a statement does to the rows it touches: a new image, or removal. */
  type Effect = map<Key, Option<Row>>

  predicate ValidEffect(rows: map<Key, Row>, effect: Effect) {
    forall k :: k in effect ==> if effect[k].Some? then KeyOf(effect[k].value) == k else k in rows
  }

  function Overlay(rows: Rows, effect: Effect): (r: Rows)
    requires ValidEffect(rows, effect)
    ensures forall k :: k in r <==> if k in effect then effect[k].Some? else k in rows
    ensures forall k :: k in r ==> r[k] == if k in effect then effect[k].value else rows[k]
  {
    map k | k in rows.Keys + effect.Keys && (k in effect ==> effect[k].Some?) ::
      if k in effect then effect[k].value else rows[k]
  }

  /** `order` lists every member of `keys` exactly once. */
  ghost predicate Enumerates(order: seq<Key>, keys: set<Key>) {
    && (forall k :: k in keys <==> k in order)
    && (forall i, j :: 0 <= i < j < |order| ==> order[i] != order[j])
  }

  // ---- queries ----

  predicate HasCredential(rows: Rows, u: Uuid) {
    CredentialKey(u) in rows
  }

  function CredentialOf(rows: Rows, u: Uuid): (c: Credential)
    requires HasCredential(rows, u)
    ensures rows[CredentialKey(u)] == CredentialRow(c) && c.userId == u
  {
    assert KeyOf(rows[CredentialKey(u)]) == CredentialKey(u);
    rows[CredentialKey(u)].credential
  }

  /** Every row of one user, over all tables. */
  function Slice(rows: Rows, u: Uuid): Rows {
    map k | k in rows && UserOf(rows[k]) == u :: rows[k]
  }

  /** The token rows `refreshTokenForRotationQuery` joins to a credential. */
  function Matches(rows: Rows, hash: Digest): set<Key> {
    set k | k in rows && rows[k].TokenRow? && rows[k].token.tokenHash == hash
        && HasCredential(rows, rows[k].token.userId)
  }

  /** The codes the verification statement marks as used. */
  function UsableCodes(rows: Rows, u: Uuid, hash: Digest, now: Time): set<Key> {
    set k | k in rows && rows[k].CodeRow? && rows[k].code.userId == u && rows[k].code.tokenHash == hash
            && rows[k].code.usedAt.None? && rows[k].code.expiresAt > now
  }

  /** The rows of `GetByIdentifier`; usernames are not unique, so there may be several. */
  function Identified(rows: Rows, identifier: string): set<Key> {
    set k | k in rows && rows[k].CredentialRow?
        && (rows[k].credential.username == identifier || rows[k].credential.email == identifier)
  }

  predicate EmailTaken(rows: Rows, email: string) {
    exists k :: k in rows && rows[k].CredentialRow? && rows[k].credential.email == email
  }

  function RolesOf(rows: Rows, u: Uuid): set<string> {
    set k | k in rows && rows[k].RoleRow? && rows[k].role.userId == u :: rows[k].role.role
  }
}
