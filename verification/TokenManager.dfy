/**
 * `TokenManager` (`src/auth/token.rs`), one call at a time. What the provider answers and when
 * are arguments; the contracts say what each call does to the plain tables the encrypted
 * database stands for.
 */
module TokenManager {
  import opened Prelude
  import opened Timestamps
  import opened Crypto
  import opened Tables
  import opened TokenRules
  import opened Database
  import opened AccountStore
  import opened TokenStore
  import Flows

  // ---- Specification ----------------------------------------------------------------

  /** What the token endpoint answers, and the time once it has. */
  datatype Answer = Answer(reply: Reply, at: Instant)

  function RefreshDb(db: Db<StoredToken>, id: string, answer: Answer): Db<StoredToken> {
    if id in db.tokens && answer.reply.Granted?
    then Upsert(db, id, Renewed(db.tokens[id], answer.reply.grant, answer.at))
    else db
  }

  function RefreshResult(db: Db<StoredToken>, id: string, answer: Answer): Result<(), AppError> {
    if id in db.tokens && answer.reply.Granted? then Ok(()) else Err(TokenExpired)
  }

  /** The cached token may be handed out as it is. */
  predicate Hit(db: Db<StoredToken>, id: string, now: Instant) {
    id in db.tokens && CacheHit(db.tokens[id], now)
  }

  function GetDb(db: Db<StoredToken>, id: string, now: Instant, answer: Answer): Db<StoredToken> {
    if !Hit(db, id, now) then RefreshDb(db, id, answer)
    else if BumpDue(db.tokens[id], now) then Upsert(db, id, Bumped(db.tokens[id], now))
    else db
  }

  function GetResult(db: Db<StoredToken>, id: string, now: Instant, answer: Answer): Result<Secret, AppError> {
    if Hit(db, id, now) then Ok(db.tokens[id].access)
    else if id in db.tokens && answer.reply.Granted? then Ok(answer.reply.grant.access)
    else Err(TokenExpired)
  }

  /** Refresh requests a forced refresh makes: none without a token to present. */
  function RefreshCost(db: Db<StoredToken>, id: string): nat {
    if id in db.tokens then 1 else 0
  }

  function GetCost(db: Db<StoredToken>, id: string, now: Instant): nat {
    if Hit(db, id, now) then 0 else RefreshCost(db, id)
  }

  /** What a refresh leaves: token, scope and expiry are the grant's, the times are the reply's. */
  lemma RefreshStoresTheGrant(db: Db<StoredToken>, id: string, answer: Answer)
    requires Consistent(db)
    ensures var db', r := RefreshDb(db, id, answer), RefreshResult(db, id, answer);
            && db'.accounts == db.accounts && db'.tokens.Keys == db.tokens.Keys
            && (forall other | other in db.tokens && other != id :: db'.tokens[other] == db.tokens[other])
            && (r.Ok? <==> id in db.tokens && answer.reply.Granted?)
            && (r.Err? ==> r.error == TokenExpired && db' == db)
            && (r.Ok? ==>
                  var grant, was, row := answer.reply.grant, db.tokens[id], db'.tokens[id];
                  && row.access == grant.access && row.scope == grant.scope && row.expiresAt == grant.expiresAt
                  && row.refresh == (if grant.refresh.Some? then grant.refresh.value else was.refresh)
                  && row.lastUsedAt == Some(answer.at) && row.updatedAt == answer.at)
  {
    assert id in db.tokens ==> id in db.accounts;
  }

  /**
   * What a use leaves. More than five minutes before its expiry the stored token is returned,
   * and only its times may change, once the use on record is more than six hours old; otherwise
   * the token is refreshed.
   */
  lemma UseKeepsTheTerms(db: Db<StoredToken>, id: string, now: Instant, answer: Answer)
    requires Consistent(db)
    ensures var db', r, cost := GetDb(db, id, now, answer), GetResult(db, id, now, answer), GetCost(db, id, now);
            if id in db.tokens && db.tokens[id].expiresAt.Some?
               && db.tokens[id].expiresAt.value > now + 5 * 60 * 1_000_000_000
            then
              var was, row := db.tokens[id], db'.tokens[id];
              && r == Ok(was.access) && cost == 0
              && db'.accounts == db.accounts && db'.tokens == db.tokens[id := row]
              && row.access == was.access && row.refresh == was.refresh
              && row.scope == was.scope && row.expiresAt == was.expiresAt
              && if was.lastUsedAt.Some? && now - was.lastUsedAt.value <= 6 * 3600 * 1_000_000_000 then row == was
                 else row.lastUsedAt == Some(now) && row.updatedAt == now
            else
              && db' == RefreshDb(db, id, answer) && cost == (if id in db.tokens then 1 else 0)
              && r == if RefreshResult(db, id, answer).Ok? then Ok(answer.reply.grant.access) else Err(TokenExpired)
  {
    if Hit(db, id, now) {
      assert id in db.accounts && db.tokens == db.tokens[id := db.tokens[id]];
    }
  }

  /** Refreshing these accounts, each by itself. */
  function RefreshEach(db: Db<StoredToken>, ids: set<string>, answers: string -> Answer): Db<StoredToken> {
    db.(tokens := map id | id in db.tokens ::
          if id in ids && answers(id).reply.Granted?
          then Renewed(db.tokens[id], answers(id).reply.grant, answers(id).at) else db.tokens[id])
  }

  /** Refreshing them one after the other. */
  function RefreshInTurn(db: Db<StoredToken>, ids: seq<string>, answers: string -> Answer): Db<StoredToken> {
    if ids == [] then db
    else RefreshDb(RefreshInTurn(db, ids[..|ids| - 1], answers), ids[|ids| - 1], answers(ids[|ids| - 1]))
  }

  predicate Distinct(ids: seq<string>) {
    forall i, j | 0 <= i < j < |ids| :: ids[i] != ids[j]
  }

  lemma OneMoreByItself(db: Db<StoredToken>, ids: set<string>, last: string, answers: string -> Answer)
    requires Consistent(db) && last !in ids
    ensures RefreshDb(RefreshEach(db, ids, answers), last, answers(last)) == RefreshEach(db, ids + {last}, answers)
  {
    var each, more := RefreshEach(db, ids, answers), RefreshEach(db, ids + {last}, answers);
    assert each.tokens.Keys == db.tokens.Keys && more.tokens.Keys == db.tokens.Keys;
    if last in db.tokens && answers(last).reply.Granted? {
      var renewed := Renewed(db.tokens[last], answers(last).reply.grant, answers(last).at);
      assert last in db.accounts && each.tokens[last] == db.tokens[last];
      assert more.tokens == each.tokens[last := renewed];
    } else {
      assert more.tokens == each.tokens;
    }
  }

  lemma NothingByItself(db: Db<StoredToken>, answers: string -> Answer)
    ensures RefreshEach(db, {}, answers) == db
  {
    assert RefreshEach(db, {}, answers).tokens == db.tokens;
  }

  /**
   * A batch is isolated and order-independent: in turn, in whatever order, is each by itself.
   */
  lemma {:induction false} BatchOrderIsInvisible(db: Db<StoredToken>, ids: seq<string>, answers: string -> Answer)
    requires Consistent(db) && Distinct(ids)
    ensures RefreshInTurn(db, ids, answers) == RefreshEach(db, (set id | id in ids), answers)
  {
    if ids == [] {
      NothingByItself(db, answers);
      assert (set id | id in ids) == {};
    } else {
      var front, last := ids[..|ids| - 1], ids[|ids| - 1];
      BatchOrderIsInvisible(db, front, answers);
      assert ids == front + [last] && last !in front;
      assert (set id | id in ids) == (set id | id in front) + {last};
      OneMoreByItself(db, (set id | id in front), last, answers);
    }
  }

  /** `refresh_all` renews exactly the accounts not disconnected whose refresh is granted. */
  lemma ActiveAreRenewed(db: Db<StoredToken>, answers: string -> Answer, id: string)
    requires Consistent(db) && id in db.tokens
    ensures var after := RefreshEach(db, ActiveIds(db), answers);
            && after.accounts == db.accounts && after.tokens.Keys == db.tokens.Keys
            && after.tokens[id] == if db.accounts[id].status == Disconnected then db.tokens[id]
                                   else RefreshDb(db, id, answers(id)).tokens[id]
  {
    assert id in db.accounts;
  }

  /** `refresh_stale` those without a use on record in the last `days` days, disconnected or not. */
  lemma IdleAreRenewed(db: Db<StoredToken>, answers: string -> Answer, id: string, now: Instant, days: int)
    requires Consistent(db) && id in db.tokens
    ensures var after, used := RefreshEach(db, InactiveIds(db, Cutoff(now, days)), answers), db.tokens[id].lastUsedAt;
            var cutoff := now - days * (24 * 3600 * 1_000_000_000);
            && after.accounts == db.accounts && after.tokens.Keys == db.tokens.Keys
            && (cutoff < END_OF_TIME ==>
                  after.tokens[id] == if used.Some? && used.value >= cutoff then db.tokens[id]
                                      else RefreshDb(db, id, answers(id)).tokens[id])
            && (cutoff >= END_OF_TIME ==>
                  after.tokens[id] == if used.Some? then db.tokens[id] else RefreshDb(db, id, answers(id)).tokens[id])
  {
    assert id in db.accounts;
  }

  lemma OutcomeByItself(db: Db<StoredToken>, ids: set<string>, id: string, answers: string -> Answer)
    requires id !in ids
    ensures RefreshResult(RefreshEach(db, ids, answers), id, answers(id)) == RefreshResult(db, id, answers(id))
  {
  }

  /** The outcome of each is the one it would have had alone. */
  lemma BatchOutcomesAreIsolated(db: Db<StoredToken>, ids: seq<string>, k: nat, answers: string -> Answer)
    requires Consistent(db) && Distinct(ids) && k < |ids|
    ensures RefreshResult(RefreshInTurn(db, ids[..k], answers), ids[k], answers(ids[k]))
         == RefreshResult(db, ids[k], answers(ids[k]))
  {
    BatchOrderIsInvisible(db, ids[..k], answers);
  }

  function Granting(ids: set<string>, answers: string -> Answer): set<string> {
    set id | id in ids && answers(id).reply.Granted?
  }

  lemma OneMoreGranting(ids: set<string>, id: string, answers: string -> Answer)
    requires id !in ids
    ensures |Granting(ids + {id}, answers)| == |Granting(ids, answers)| + if answers(id).reply.Granted? then 1 else 0
  {
    if answers(id).reply.Granted? {
      assert Granting(ids + {id}, answers) == Granting(ids, answers) + {id};
    } else {
      assert Granting(ids + {id}, answers) == Granting(ids, answers);
    }
  }

  function FirstOf(ids: seq<string>, i: nat): set<string>
    requires i <= |ids|
  {
    set j | 0 <= j < i :: ids[j]
  }

  lemma NextOf(ids: seq<string>, i: nat)
    requires i < |ids| && Distinct(ids)
    ensures ids[i] !in FirstOf(ids, i) && FirstOf(ids, i + 1) == FirstOf(ids, i) + {ids[i]}
  {
  }

  /** How many of the first `i` refreshes succeed, counted one by one. */
  function Renewals(db: Db<StoredToken>, ids: seq<string>, i: nat, answers: string -> Answer): nat
    requires i <= |ids|
  {
    if i == 0 then 0
    else Renewals(db, ids, i - 1, answers) + if RefreshResult(db, ids[i - 1], answers(ids[i - 1])).Ok? then 1 else 0
  }

  lemma {:induction false} RenewalsCountGranting(db: Db<StoredToken>, ids: seq<string>, i: nat,
                                                 answers: string -> Answer)
    requires i <= |ids| && Distinct(ids) && forall id | id in ids :: id in db.tokens
    ensures Renewals(db, ids, i, answers) == |Granting(FirstOf(ids, i), answers)|
  {
    if i == 0 {
      assert Granting(FirstOf(ids, 0), answers) == {};
    } else {
      RenewalsCountGranting(db, ids, i - 1, answers);
      NextOf(ids, i - 1);
      OneMoreGranting(FirstOf(ids, i - 1), ids[i - 1], answers);
    }
  }

  lemma AllOf(ids: seq<string>, s: set<string>)
    requires forall id :: id in ids <==> id in s
    ensures FirstOf(ids, |ids|) == s
  {
  }

  /** Every account, each once. */
  predicate Listed(db: Db<StoredToken>, all: seq<Account>) {
    && (forall i, j | 0 <= i < j < |all| :: all[i].id != all[j].id)
    && (forall i | 0 <= i < |all| :: all[i].id in db.accounts && db.accounts[all[i].id] == all[i])
    && (forall id | id in db.accounts :: db.accounts[id] in all)
  }

  function FirstActive(all: seq<Account>, i: nat): set<string>
    requires i <= |all|
  {
    set j | 0 <= j < i && all[j].status != Disconnected :: all[j].id
  }

  lemma NextActive(db: Db<StoredToken>, all: seq<Account>, i: nat)
    requires Listed(db, all) && i < |all|
    ensures FirstActive(all, i + 1) == FirstActive(all, i) + if all[i].status != Disconnected then {all[i].id} else {}
    ensures all[i].id !in FirstActive(all, i)
  {
  }

  lemma AllActive(all: seq<Account>, db: Db<StoredToken>)
    requires Consistent(db) && Listed(db, all)
    ensures FirstActive(all, |all|) == ActiveIds(db)
  {
    forall id | id in ActiveIds(db) ensures id in FirstActive(all, |all|) {
      var i :| 0 <= i < |all| && all[i] == db.accounts[id];
    }
  }

  type Outcome = (Account, Result<(), AppError>)

  /** One outcome for each of these accounts, as it was listed, with the result it would have had alone. */
  ghost predicate Reports(db: Db<StoredToken>, outcomes: seq<Outcome>, ids: set<string>, answers: string -> Answer) {
    && (forall o | o in outcomes :: o.0.id in ids && o.0.id in db.accounts && o.0 == db.accounts[o.0.id]
                                    && o.1 == RefreshResult(db, o.0.id, answers(o.0.id)))
    && (forall id | id in ids :: exists o | o in outcomes :: o.0.id == id)
    && |outcomes| == |ids|
  }

  lemma OneMoreReport(db: Db<StoredToken>, outcomes: seq<Outcome>, ids: set<string>, o: Outcome,
                      answers: string -> Answer)
    requires Reports(db, outcomes, ids, answers) && o.0.id !in ids
    requires o.0.id in db.accounts && o.0 == db.accounts[o.0.id] && o.1 == RefreshResult(db, o.0.id, answers(o.0.id))
    ensures Reports(db, outcomes + [o], ids + {o.0.id}, answers)
  {
    forall id | id in ids + {o.0.id} ensures exists x | x in outcomes + [o] :: x.0.id == id {
      if id == o.0.id {
        assert o in outcomes + [o];
      } else {
        var x :| x in outcomes && x.0.id == id;
        assert x in outcomes + [o];
      }
    }
  }

  /** The report on the first accounts, extended by the next active one. */
  lemma ReportGrows(db: Db<StoredToken>, all: seq<Account>, i: nat, so: seq<Outcome>, result: Result<(), AppError>,
                    answers: string -> Answer)
    requires Listed(db, all) && i < |all| && all[i].status != Disconnected
    requires Reports(db, so, FirstActive(all, i), answers) && result == RefreshResult(db, all[i].id, answers(all[i].id))
    ensures Reports(db, so + [(all[i], result)], FirstActive(all, i + 1), answers)
  {
    NextActive(db, all, i);
    OneMoreReport(db, so, FirstActive(all, i), (all[i], result), answers);
  }

  // ---- Consent ----------------------------------------------------------------------

  /** Whom a freshly granted access token speaks for. */
  datatype Identity = Identity(email: string, displayName: Option<string>)

  /** How the provider reacts to a consent: to the verifier presented, and to the access token granted. */
  datatype Provider = Provider(exchange: Secret -> Reply, profile: Secret -> Result<Identity, AppError>)

  /** What a consent stores: grant, refresh token and identity. */
  datatype Consented = Consented(grant: Grant, refresh: Secret, identity: Identity)

  function FlowFailure(e: Flows.FlowError): AppError {
    if e.Storage? then AppError.Storage else Auth
  }

  function FirstToken(c: Consented, now: Instant): StoredToken {
    StoredToken(c.grant.access, c.refresh, c.grant.scope, c.grant.expiresAt, Some(now), now)
  }

  /**
   * Where a consent lands. A mailbox already known to the tenant, up to ASCII case, keeps its
   * id and its row: the returned account says `Active`, the row keeps the status it had.
   */
  predicate LandsOn(was: Db<StoredToken>, after: Db<StoredToken>, a: Account, tenant: string, c: Consented,
                    id: string, now: Instant) {
    && after.tokens == was.tokens[a.id := FirstToken(c, now)]
    && if Matches(was, tenant, c.identity.email) == {}
       then && a == Account(id, tenant, c.identity.email, c.identity.displayName, Active, now, now)
            && after.accounts == was.accounts[id := a]
       else && a.id in Matches(was, tenant, c.identity.email) && after.accounts == was.accounts
            && a == was.accounts[a.id].(displayName := c.identity.displayName, status := Active, updatedAt := now)
  }

  /**
   * The token of a landed consent is the grant's as it came, and its account the tenant's one
   * with the mailbox's email up to case, or else a new one under the new id.
   */
  lemma LandingStoresTheGrant(was: Db<StoredToken>, after: Db<StoredToken>, a: Account, tenant: string, c: Consented,
                   id: string, now: Instant)
    requires LandsOn(was, after, a, tenant, c, id, now) && Consistent(was)
    ensures a.tenant == tenant && SameUpToCase(a.email, c.identity.email)
    ensures a.displayName == c.identity.displayName && a.status == Active && a.updatedAt == now
    ensures after.tokens == was.tokens[a.id := StoredToken(c.grant.access, c.refresh, c.grant.scope,
                                                           c.grant.expiresAt, Some(now), now)]
    ensures if exists x :: x in was.accounts && was.accounts[x].tenant == tenant
                           && SameUpToCase(was.accounts[x].email, c.identity.email)
            then a.id in was.accounts && after.accounts == was.accounts && a.email == was.accounts[a.id].email
            else a.id == id && a.email == c.identity.email && after.accounts == was.accounts[id := a]
  {
    LowerFoldsCaseOnly(a.email, c.identity.email);
    forall x | x in was.accounts
      ensures x in Matches(was, tenant, c.identity.email) <==>
                was.accounts[x].tenant == tenant && SameUpToCase(was.accounts[x].email, c.identity.email)
    {
      MatchesAreSameUpToCase(was, tenant, c.identity.email, x);
    }
  }

  /** Reconnecting a disconnected account stores a token but leaves its row disconnected: no batch refreshes it. */
  lemma ReconnectionStaysDisconnected(was: Db<StoredToken>, after: Db<StoredToken>, a: Account, tenant: string,
                                      c: Consented,
                                      id: string, now: Instant)
    requires Consistent(was) && LandsOn(was, after, a, tenant, c, id, now)
    requires a.id in was.accounts && was.accounts[a.id].status == Disconnected && id !in was.accounts
    ensures a.status == Active && after.accounts[a.id].status == Disconnected
    ensures a.id in after.tokens && a.id !in ActiveIds(after)
  {
    assert Matches(was, tenant, c.identity.email) != {};
  }

  /** The account a consent found or drafted is there or may be inserted. */
  lemma Fits(was: Db<StoredToken>, a: Account, tenant: string, c: Consented, id: string, now: Instant)
    requires Consistent(was) && id !in was.accounts
    requires if Matches(was, tenant, c.identity.email) == {}
             then a == Account(id, tenant, c.identity.email, c.identity.displayName, Active, now, now)
             else && a.id in Matches(was, tenant, c.identity.email)
                  && a == was.accounts[a.id].(displayName := c.identity.displayName, status := Active, updatedAt := now)
    ensures Owns(was, a.tenant, a.id) <==> Matches(was, tenant, c.identity.email) != {}
    ensures !Owns(was, a.tenant, a.id) ==> a.id == id && CanCreate(was, a)
  {
    forall other | other in was.accounts && Clashes(was.accounts[other], a)
      ensures other in Matches(was, tenant, c.identity.email) || a.id in was.accounts
    {
    }
  }

  function DisconnectDb(db: Db<StoredToken>, account: Account, now: Instant): Db<StoredToken> {
    SetStatus(Drop(db, account.id), account.tenant, account.id, Disconnected, now)
  }

  // ---- The manager ------------------------------------------------------------------

  /** A per-account mutex; what matters here is only which one it is. */
  class RefreshLock {
    constructor () {
    }
  }

  class TokenManager {
    const db: Connection
    const accounts: SqliteAccountStore
    const tokens: SqliteTokenStore
    const flows: Flows.FlowStore
    var refreshLocks: map<string, RefreshLock>
    /** Refresh requests sent to the provider so far. */
    ghost var exchanges: nat

    constructor (db: Connection, aead: Aead, key: seq<byte>)
      requires aead.Sound() && Consistent(db.Rows()) && AllIntact(aead, key, db.tokens)
      requires db.plain == DecodeAll(aead, key, db.tokens)
      ensures Valid() && this.db == db
    {
      this.db := db;
      accounts := new SqliteAccountStore(db);
      tokens := new SqliteTokenStore(db, aead, key);
      flows := new Flows.FlowStore(db, aead, key);
      refreshLocks := map[];
      exchanges := 0;
    }

    ghost predicate Valid()
      reads db
    {
      accounts.db == db && tokens.db == db && flows.db == db && flows.aead.Sound() && tokens.Valid()
    }

    /** The tables, the tokens in plain. */
    ghost function View(): Db<StoredToken>
      reads db
    {
      db.View()
    }

    /** The registry only grows and always yields the same lock for an id. */
    method AccountLock(id: string) returns (lock: RefreshLock)
      modifies this`refreshLocks
      ensures id in refreshLocks && refreshLocks[id] == lock
      ensures id in old(refreshLocks) ==> refreshLocks == old(refreshLocks)
      ensures id !in old(refreshLocks) ==> refreshLocks == old(refreshLocks)[id := lock] && fresh(lock)
    {
      if id !in refreshLocks {
        var created := new RefreshLock();
        refreshLocks := refreshLocks[id := created];
      }
      lock := refreshLocks[id];
    }

    method RefreshAccount(id: string, now: Instant, answer: Answer) returns (r: Result<(), AppError>)
      requires Valid()
      modifies this`refreshLocks, this`exchanges, db`tokens, db`plain
      ensures Valid()
      ensures View() == RefreshDb(old(View()), id, answer) && r == RefreshResult(old(View()), id, answer)
      ensures exchanges == old(exchanges) + RefreshCost(old(View()), id)
    {
      tokens.ViewIsConsistent();
      var lock := AccountLock(id);
      var got := tokens.Get(id, now);
      if got.value.None? {
        return Err(TokenExpired);
      }
      var current := got.value.value;
      exchanges := exchanges + 1;
      if answer.reply.Refused? {
        return Err(TokenExpired);
      }
      var grant := answer.reply.grant;
      var refresh := if grant.refresh.Some? then grant.refresh.value else current.refresh;
      var stored := StoredToken(grant.access, refresh, grant.scope, grant.expiresAt, Some(answer.at), answer.at);
      r := tokens.Upsert(id, stored);
    }

    /** Best effort: a failed write is ignored. */
    method BumpLastUsed(id: string, token: StoredToken, now: Instant)
      requires Valid()
      modifies db`tokens, db`plain
      ensures Valid()
      ensures View() == if BumpDue(token, now) then Upsert(old(View()), id, Bumped(token, now)) else old(View())
      ensures BumpDue(token, now) && id in old(View()).accounts ==>
                && id in View().tokens && View().tokens[id].access == token.access
                && View().tokens[id].refresh == token.refresh && View().tokens[id].scope == token.scope
                && View().tokens[id].expiresAt == token.expiresAt
    {
      var shouldWrite := token.lastUsedAt.None? || now - token.lastUsedAt.value > USAGE_WRITE_INTERVAL;
      if !shouldWrite {
        return;
      }
      var updated := token.(lastUsedAt := Some(now), updatedAt := now);
      var ignored := tokens.Upsert(id, updated);
    }

    /** The cached token, if it still is usable; using it may bump its last use. */
    method CachedToken(id: string, now: Instant) returns (hit: Option<Secret>)
      requires Valid()
      modifies db`tokens, db`plain
      ensures Valid()
      ensures hit == if Hit(old(View()), id, now) then Some(old(View()).tokens[id].access) else None
      ensures View() == if hit.Some? && BumpDue(old(View()).tokens[id], now)
                        then Upsert(old(View()), id, Bumped(old(View()).tokens[id], now)) else old(View())
    {
      var got := tokens.Get(id, now);
      if got.value.Some? {
        var token := got.value.value;
        if token.expiresAt.Some? && token.expiresAt.value > now + EXPIRY_SKEW {
          BumpLastUsed(id, token, now);
          return Some(token.access);
        }
      }
      hit := None;
    }

    /** A cache miss: refresh, then read the token to return. */
    method RefreshAndRead(id: string, now: Instant, answer: Answer) returns (r: Result<Secret, AppError>)
      requires Valid()
      modifies this`refreshLocks, this`exchanges, db`tokens, db`plain
      ensures Valid()
      ensures View() == RefreshDb(old(View()), id, answer)
      ensures r == if RefreshResult(old(View()), id, answer).Ok? then Ok(answer.reply.grant.access)
          else Err(TokenExpired)
      ensures exchanges == old(exchanges) + RefreshCost(old(View()), id)
    {
      tokens.ViewIsConsistent();
      var refreshed := RefreshAccount(id, now, answer);
      if refreshed.Err? {
        return Err(refreshed.error);
      }
      var again := tokens.Get(id, now);
      r := if again.value.Some? then Ok(again.value.value.access) else Err(TokenExpired);
    }

    method GetAccessToken(id: string, now: Instant, answer: Answer) returns (r: Result<Secret, AppError>)
      requires Valid()
      modifies this`refreshLocks, this`exchanges, db`tokens, db`plain
      ensures Valid()
      ensures View() == GetDb(old(View()), id, now, answer) && r == GetResult(old(View()), id, now, answer)
      ensures exchanges == old(exchanges) + GetCost(old(View()), id, now)
    {
      var hit := CachedToken(id, now);
      if hit.Some? {
        return Ok(hit.value);
      }
      r := RefreshAndRead(id, now, answer);
    }

    /** One account of a batch, after some others. */
    method RefreshNext(ghost was: Db<StoredToken>, ghost done: set<string>, id: string, now: Instant,
                       answers: string -> Answer)
      returns (r: Result<(), AppError>)
      requires Valid() && Consistent(was) && View() == RefreshEach(was, done, answers) && id !in done
      modifies this`refreshLocks, this`exchanges, db`tokens, db`plain
      ensures Valid()
      ensures View() == RefreshEach(was, done + {id}, answers) && r == RefreshResult(was, id, answers(id))
    {
      OneMoreByItself(was, done, id, answers);
      OutcomeByItself(was, done, id, answers);
      r := RefreshAccount(id, now, answers(id));
    }

    /** One account of `refresh_all`: skipped if disconnected, else refreshed and reported. */
    method ReportNth(ghost was: Db<StoredToken>, all: seq<Account>, i: nat, so: seq<Outcome>, now: Instant,
                     answers: string -> Answer)
      returns (outcomes: seq<Outcome>)
      requires Valid() && Consistent(was) && Listed(was, all) && i < |all|
      requires View() == RefreshEach(was, FirstActive(all, i), answers)
      requires Reports(was, so, FirstActive(all, i), answers)
      modifies this`refreshLocks, this`exchanges, db`tokens, db`plain
      ensures Valid()
      ensures View() == RefreshEach(was, FirstActive(all, i + 1), answers)
      ensures Reports(was, outcomes, FirstActive(all, i + 1), answers)
    {
      var account := all[i];
      NextActive(was, all, i);
      if account.status == Disconnected {
        return so;
      }
      var result := RefreshNext(was, FirstActive(all, i), account.id, now, answers);
      ReportGrows(was, all, i, so, result, answers);
      outcomes := so + [(account, result)];
    }

    method RefreshAll(now: Instant, answers: string -> Answer) returns (outcomes: seq<Outcome>)
      requires Valid()
      modifies this`refreshLocks, this`exchanges, db`tokens, db`plain
      ensures Valid()
      ensures View() == RefreshEach(old(View()), ActiveIds(old(View())), answers)
      ensures Reports(old(View()), outcomes, ActiveIds(old(View())), answers)
    {
      ghost var was := View();
      tokens.ViewIsConsistent();
      var all := accounts.ListAll();
      outcomes := [];
      assert FirstActive(all, 0) == {};
      NothingByItself(was, answers);
      for i := 0 to |all|
        invariant Valid() && View() == RefreshEach(was, FirstActive(all, i), answers)
        invariant Reports(was, outcomes, FirstActive(all, i), answers)
      {
        outcomes := ReportNth(was, all, i, outcomes, now, answers);
      }
      AllActive(all, was);
    }

    /** One listed account, counted unless its refresh fails. */
    method RenewNth(ghost was: Db<StoredToken>, ids: seq<string>, i: nat, so: nat, now: Instant,
                    answers: string -> Answer)
      returns (refreshed: nat)
      requires Valid() && Consistent(was) && i < |ids| && Distinct(ids)
      requires View() == RefreshEach(was, FirstOf(ids, i), answers) && so == Renewals(was, ids, i, answers)
      modifies this`refreshLocks, this`exchanges, db`tokens, db`plain
      ensures Valid()
      ensures View() == RefreshEach(was, FirstOf(ids, i + 1), answers)
      ensures refreshed == Renewals(was, ids, i + 1, answers)
    {
      NextOf(ids, i);
      var result := RefreshNext(was, FirstOf(ids, i), ids[i], now, answers);
      refreshed := if result.Ok? then so + 1 else so;
    }

    /** The loop of `refresh_stale`. */
    method RefreshListed(ids: seq<string>, now: Instant, answers: string -> Answer) returns (refreshed: nat)
      requires Valid() && Distinct(ids)
      modifies this`refreshLocks, this`exchanges, db`tokens, db`plain
      ensures Valid()
      ensures View() == RefreshEach(old(View()), FirstOf(ids, |ids|), answers)
      ensures refreshed == Renewals(old(View()), ids, |ids|, answers)
    {
      ghost var was := View();
      tokens.ViewIsConsistent();
      refreshed := 0;
      assert FirstOf(ids, 0) == {};
      NothingByItself(was, answers);
      for i := 0 to |ids|
        invariant Valid() && View() == RefreshEach(was, FirstOf(ids, i), answers)
        invariant refreshed == Renewals(was, ids, i, answers)
      {
        refreshed := RenewNth(was, ids, i, refreshed, now, answers);
      }
    }

    /** Returns how many accounts were renewed. */
    method RefreshStale(days: int, now: Instant, answers: string -> Answer) returns (refreshed: nat)
      requires Valid()
      modifies this`refreshLocks, this`exchanges, db`tokens, db`plain
      ensures Valid()
      ensures View() == RefreshEach(old(View()), InactiveIds(old(View()), Cutoff(now, days)), answers)
      ensures refreshed == |Granting(InactiveIds(old(View()), Cutoff(now, days)), answers)|
    {
      var cutoff := Cutoff(now, days);
      var ids := tokens.ListInactive(cutoff);
      ghost var idle := InactiveIds(View(), cutoff);
      AllOf(ids, idle);
      assert FirstOf(ids, |ids|) == idle == InactiveIds(View(), Cutoff(now, days));
      RenewalsCountGranting(View(), ids, |ids|, answers);
      refreshed := RefreshListed(ids, now, answers);
    }

    /** The consent URL carries the state the flow is stored under. */
    method BeginFlow(tenant: string, verifier: Secret, state: string, secs: int)
      requires Valid()
      modifies db`flows
      ensures Valid() && View() == old(View())
      ensures exists nonce :: |nonce| == NONCE_LEN && db.flows ==
                Flows.InsertRow(old(db.flows), state,
                    FlowRow(Frame(flows.aead, flows.key, nonce, verifier), tenant, secs))
    {
      flows.Insert(verifier, tenant, state, secs);
    }

    /** The account a consent is for: a known one, updated in memory only, or a new one under a fresh id. */
    method FindAccount(tenant: string, identity: Identity, id: string, now: Instant) returns (account: Account)
      requires Valid()
      ensures if Matches(View(), tenant, identity.email) == {}
              then account == Account(id, tenant, identity.email, identity.displayName, Active, now, now)
              else && account.id in Matches(View(), tenant, identity.email)
                   && account == View().accounts[account.id].(displayName := identity.displayName, status := Active,
                                                              updatedAt := now)
    {
      var found := accounts.GetByEmail(tenant, identity.email);
      assert Matches(View(), tenant, identity.email) == Matches(db.Rows(), tenant, identity.email);
      match found
      case Ok(existing) =>
        account := existing.(displayName := identity.displayName, status := Active, updatedAt := now);
      case Err(_) =>
        account := Account(id, tenant, identity.email, identity.displayName, Active, now, now);
    }

    /** Insert the account unless its row exists, which under the schema then always succeeds. */
    method EnsureRow(account: Account) returns (r: Result<(), AppError>)
      requires Valid()
      modifies db`accounts
      ensures Valid()
      ensures View() == if Owns(old(View()), account.tenant, account.id) then old(View())
          else Create(old(View()), account)
      ensures r.Ok? <==> Owns(old(View()), account.tenant, account.id) || CanCreate(old(View()), account)
      ensures r.Err? ==> r.error == InvalidRequest
    {
      var present := accounts.Get(account.tenant, account.id);
      if present.Ok? {
        return Ok(());
      }
      StatementsKeepSchema(db.Rows(), account, "", "", Active, 0);
      r := accounts.Create(account);
      tokens.StaysValid();
    }

    /** The tail of `complete_flow`, from the lookup on. */
    method Land(tenant: string, c: Consented, id: string, now: Instant) returns (r: Result<Account, AppError>)
      requires Valid() && id !in View().accounts
      modifies db`accounts, db`tokens, db`plain
      ensures Valid()
      ensures r.Ok? && LandsOn(old(View()), View(), r.value, tenant, c, id, now)
    {
      ghost var was := View();
      tokens.ViewIsConsistent();
      var account := FindAccount(tenant, c.identity, id, now);
      Fits(was, account, tenant, c, id, now);
      var stored := StoredToken(c.grant.access, c.refresh, c.grant.scope, c.grant.expiresAt, Some(now), now);
      var created := EnsureRow(account);
      var written := tokens.Upsert(account.id, stored);
      r := Ok(account);
    }

    method CompleteFlow(state: string, secs: int, provider: Provider, id: string, now: Instant)
      returns (r: Result<Account, AppError>)
      requires Valid() && id !in View().accounts
      modifies db`flows, db`accounts, db`tokens, db`plain
      ensures Valid() && db.flows == old(db.flows) - {state}
      ensures r.Err? ==> View() == old(View())
      ensures var flow := Flows.Resolve(flows.aead, flows.key, old(db.flows), state, secs);
              && (flow == Err(Flows.UnknownState) || flow == Err(Flows.Expired) ==> r == Err(Auth))
              && (flow == Err(Flows.FlowError.Storage) ==> r == Err(AppError.Storage))
              && (flow.Ok? ==>
                    var reply := provider.exchange(flow.value.verifier);
                    if reply.Refused? || reply.grant.refresh.None? then r == Err(Auth)
                    else
                      match provider.profile(reply.grant.access)
                      case Err(e) => r == Err(e)
                      case Ok(identity) =>
                        var c := Consented(reply.grant, reply.grant.refresh.value, identity);
                        r.Ok? && LandsOn(old(View()), View(), r.value, flow.value.tenant, c, id, now))
    {
      var flow := flows.Take(state, secs);
      if flow.Err? {
        return Err(FlowFailure(flow.error));
      }
      var reply := provider.exchange(flow.value.verifier);
      if reply.Refused? || reply.grant.refresh.None? {
        return Err(Auth);
      }
      var profile := provider.profile(reply.grant.access);
      if profile.Err? {
        return Err(profile.error);
      }
      r := Land(flow.value.tenant, Consented(reply.grant, reply.grant.refresh.value, profile.value), id, now);
    }

    method Disconnect(account: Account, now: Instant) returns (r: Result<(), AppError>)
      requires Valid()
      modifies db`tokens, db`plain, db`accounts
      ensures Valid()
      ensures View() == DisconnectDb(old(View()), account, now)
      ensures r == if Owns(old(View()), account.tenant, account.id) then Ok(()) else Err(NotFound)
      ensures View().tokens == old(View()).tokens - {account.id}
      ensures r.Ok? ==>
                View().accounts == old(View()).accounts[account.id :=
                  old(View()).accounts[account.id].(status := Disconnected, updatedAt := now)]
    {
      tokens.Delete(account.id);
      label dropped:
      StatementsKeepSchema(db.Rows(), account, account.tenant, account.id, Disconnected, now);
      r := accounts.SetStatus(account.tenant, account.id, Disconnected, now);
      tokens.StaysValid@dropped();
    }
  }
}
