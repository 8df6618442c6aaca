/**
 * The rows of the `accounts` and `tokens` tables as values, and what each statement of the
 * stores does to them under the constraints `SCHEMA` declares (`src/storage/db.rs:64-87`).
 */
module Tables {
  import opened Prelude
  import opened Timestamps

  datatype Status = Active | Disconnected

  datatype Account = Account(id: string, tenant: string, email: string, displayName: Option<string>,
                             status: Status, createdAt: Instant, updatedAt: Instant)

  datatype StoredToken = StoredToken(access: Secret, refresh: Secret, scope: Option<string>,
                                     expiresAt: Option<Instant>, lastUsedAt: Option<Instant>, updatedAt: Instant)

  /** Both tables; a token row is encrypted text in the database and a `StoredToken` outside it. */
  datatype Db<Tok> = Db(accounts: map<string, Account>, tokens: map<string, Tok>)

  /** SQLite's `lower`: ASCII letters only. */
  function Lower(s: string): (r: string)
    ensures |r| == |s|
  {
    seq(|s|, i requires 0 <= i < |s| => if 'A' <= s[i] <= 'Z' then (s[i] as int + 32) as char else s[i])
  }

  /** One character, or an ASCII letter (65 to 90, and 32 higher) in its two cases. */
  predicate SameLetter(a: char, b: char) {
    || a == b
    || (65 <= a as int <= 90 && b as int == a as int + 32)
    || (65 <= b as int <= 90 && a as int == b as int + 32)
  }

  /** The same text up to the case of its ASCII letters. */
  predicate SameUpToCase(s: string, t: string) {
    |s| == |t| && forall i | 0 <= i < |s| :: SameLetter(s[i], t[i])
  }

  /** What `lower` identifies and what it keeps apart. */
  lemma LowerFoldsCaseOnly(s: string, t: string)
    ensures Lower(s) == Lower(t) <==> SameUpToCase(s, t)
  {
    if Lower(s) == Lower(t) {
      assert |s| == |t|;
      forall i | 0 <= i < |s| ensures SameLetter(s[i], t[i]) {
        assert Lower(s)[i] == Lower(t)[i];
      }
    }
  }

  /** The rows `get_by_email` may return. */
  function Matches<Tok>(db: Db<Tok>, tenant: string, email: string): set<string> {
    set id | id in db.accounts && db.accounts[id].tenant == tenant && Lower(db.accounts[id].email) == Lower(email)
  }

  /** They are the tenant's rows with that email up to case. */
  lemma MatchesAreSameUpToCase<Tok>(db: Db<Tok>, tenant: string, email: string, id: string)
    ensures id in Matches(db, tenant, email) <==>
              id in db.accounts && db.accounts[id].tenant == tenant && SameUpToCase(db.accounts[id].email, email)
  {
    if id in db.accounts {
      LowerFoldsCaseOnly(db.accounts[id].email, email);
    }
  }

  /** `AccountStore::get` finds a row. */
  predicate Owns<Tok>(db: Db<Tok>, tenant: string, id: string) {
    id in db.accounts && db.accounts[id].tenant == tenant
  }

  /** Two rows that `UNIQUE (tenant_id, email_address)` keeps apart: the comparison is exact. */
  predicate Clashes(a: Account, b: Account) {
    a.tenant == b.tenant && a.email == b.email
  }

  /** The primary key and `UNIQUE (tenant_id, email_address)` admit the row. */
  predicate CanCreate<Tok>(db: Db<Tok>, a: Account) {
    && a.id !in db.accounts
    && forall id | id in db.accounts :: !Clashes(db.accounts[id], a)
  }

  function Create<Tok>(db: Db<Tok>, a: Account): Db<Tok> {
    if CanCreate(db, a) then db.(accounts := db.accounts[a.id := a]) else db
  }

  /** Deleting an account cascades to its token. */
  function Remove<Tok>(db: Db<Tok>, tenant: string, id: string): Db<Tok> {
    if Owns(db, tenant, id) then Db(db.accounts - {id}, db.tokens - {id}) else db
  }

  function SetStatus<Tok>(db: Db<Tok>, tenant: string, id: string, status: Status, now: Instant): Db<Tok> {
    if Owns(db, tenant, id)
    then db.(accounts := db.accounts[id := db.accounts[id].(status := status, updatedAt := now)])
    else db
  }

  /** The foreign key rejects a token without its account. */
  function Upsert<Tok>(db: Db<Tok>, id: string, token: Tok): Db<Tok> {
    if id in db.accounts then db.(tokens := db.tokens[id := token]) else db
  }

  function Drop<Tok>(db: Db<Tok>, id: string): Db<Tok> {
    db.(tokens := db.tokens - {id})
  }

  /** The accounts `refresh_all` refreshes. */
  function ActiveIds<Tok>(db: Db<Tok>): set<string> {
    set id | id in db.accounts && db.accounts[id].status != Disconnected
  }

  /**
   * `list_inactive`: no recorded use, or one strictly before the cutoff. The comparison is of
   * texts, and a cutoff after the year 9999 prints as one that no recorded use precedes.
   */
  predicate Inactive(token: StoredToken, cutoff: int) {
    token.lastUsedAt.None? || (token.lastUsedAt.value < cutoff && cutoff < END_OF_TIME)
  }

  function InactiveIds(db: Db<StoredToken>, cutoff: int): set<string> {
    set id | id in db.tokens && Inactive(db.tokens[id], cutoff)
  }

  /**
   * What `SCHEMA` declares: rows sit under their id, `UNIQUE (tenant_id, email_address)`, and
   * every token references an account.
   */
  predicate Consistent<Tok>(db: Db<Tok>) {
    && (forall id | id in db.accounts :: db.accounts[id].id == id)
    && (forall x, y | x in db.accounts && y in db.accounts && x != y ::
          !Clashes(db.accounts[x], db.accounts[y]))
    && db.tokens.Keys <= db.accounts.Keys
  }

  /** No statement of the stores breaks the schema. */
  lemma StatementsKeepSchema<Tok>(db: Db<Tok>, a: Account, tenant: string, id: string, status: Status, now: Instant)
    requires Consistent(db)
    ensures Consistent(Create(db, a)) && Consistent(Remove(db, tenant, id))
    ensures Consistent(SetStatus(db, tenant, id, status, now)) && Consistent(Drop(db, id))
    ensures forall token :: Consistent(Upsert(db, id, token))
  {
    StatusKeepsSchema(db, tenant, id, status, now);
  }

  lemma StatusKeepsSchema<Tok>(db: Db<Tok>, tenant: string, id: string, status: Status, now: Instant)
    requires Consistent(db)
    ensures Consistent(SetStatus(db, tenant, id, status, now))
  {
  }
}
