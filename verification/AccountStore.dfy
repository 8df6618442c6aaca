/** Tenant-scoped account persistence (`src/storage/accounts.rs`). */
module AccountStore {
  import opened Prelude
  import opened Timestamps
  import opened Tables
  import opened Database

  class SqliteAccountStore {
    const db: Connection

    constructor (db: Connection)
      ensures this.db == db
    {
      this.db := db;
    }

    method Create(account: Account) returns (r: Result<(), AppError>)
      modifies db`accounts
      ensures r == if CanCreate(old(db.Rows()), account) then Ok(()) else Err(InvalidRequest)
      ensures db.Rows() == Tables.Create(old(db.Rows()), account)
      ensures db.View() == Tables.Create(old(db.View()), account)
      ensures r.Ok? <==>
                && account.id !in old(db.accounts)
                && forall id | id in old(db.accounts) ::
                     old(db.accounts)[id].tenant != account.tenant || old(db.accounts)[id].email != account.email
      ensures db.accounts == if r.Ok? then old(db.accounts)[account.id := account] else old(db.accounts)
    {
      var taken := account.id in db.accounts;
      var rest := db.accounts.Keys;
      while rest != {}
        invariant rest <= db.accounts.Keys
        invariant taken <==>
          || account.id in db.accounts
          || (exists id :: id in db.accounts.Keys - rest && Clashes(db.accounts[id], account))
      {
        var id :| id in rest;
        taken := taken || Clashes(db.accounts[id], account);
        rest := rest - {id};
      }
      if taken {
        return Err(InvalidRequest);
      }
      db.accounts := db.accounts[account.id := account];
      r := Ok(());
    }

    method Get(tenant: string, id: string) returns (r: Result<Account, AppError>)
      ensures r == if Owns(db.Rows(), tenant, id) then Ok(db.accounts[id]) else Err(NotFound)
      ensures r.Ok? <==> id in db.accounts && db.accounts[id].tenant == tenant
    {
      r := if id in db.accounts && db.accounts[id].tenant == tenant then Ok(db.accounts[id]) else Err(NotFound);
    }

    /** The query has no `ORDER BY`: any matching row may come first. */
    method GetByEmail(tenant: string, email: string) returns (r: Result<Account, AppError>)
      ensures r.Err? <==> Matches(db.Rows(), tenant, email) == {}
      ensures r.Err? ==> r.error == NotFound
      ensures r.Ok? ==> exists id :: id in Matches(db.Rows(), tenant, email) && r.value == db.accounts[id]
      ensures r.Ok? ==> r.value.tenant == tenant && SameUpToCase(r.value.email, email)
      ensures r.Err? ==> forall id | id in db.accounts && db.accounts[id].tenant == tenant ::
                           !SameUpToCase(db.accounts[id].email, email)
    {
      var out: seq<Account> := [];
      var rest := db.accounts.Keys;
      while rest != {}
        invariant rest <= db.accounts.Keys
        invariant forall id | id in Matches(db.Rows(), tenant, email) - rest :: db.accounts[id] in out
        invariant forall a | a in out :: exists id :: id in Matches(db.Rows(), tenant, email) && a == db.accounts[id]
      {
        var id :| id in rest;
        if db.accounts[id].tenant == tenant && Lower(db.accounts[id].email) == Lower(email) {
          assert id in Matches(db.Rows(), tenant, email);
          out := out + [db.accounts[id]];
        }
        rest := rest - {id};
      }
      r := if out == [] then Err(NotFound) else Ok(out[0]);
      if out != [] {
        assert out[0] in out;
        LowerFoldsCaseOnly(out[0].email, email);
      }
      forall id | id in db.accounts && db.accounts[id].tenant == tenant && SameUpToCase(db.accounts[id].email, email)
        ensures id in Matches(db.Rows(), tenant, email)
      {
        MatchesAreSameUpToCase(db.Rows(), tenant, email, id);
      }
    }

    method SetStatus(tenant: string, id: string, status: Status, now: Instant) returns (r: Result<(), AppError>)
      modifies db`accounts
      ensures r == if Owns(old(db.Rows()), tenant, id) then Ok(()) else Err(NotFound)
      ensures db.Rows() == Tables.SetStatus(old(db.Rows()), tenant, id, status, now)
      ensures db.View() == Tables.SetStatus(old(db.View()), tenant, id, status, now)
      ensures r.Ok? <==> id in old(db.accounts) && old(db.accounts)[id].tenant == tenant
      ensures r.Ok? ==>
                db.accounts == old(db.accounts)[id := old(db.accounts)[id].(status := status, updatedAt := now)]
      ensures r.Err? ==> db.accounts == old(db.accounts)
    {
      if id !in db.accounts || db.accounts[id].tenant != tenant {
        return Err(NotFound);
      }
      db.accounts := db.accounts[id := db.accounts[id].(status := status, updatedAt := now)];
      r := Ok(());
    }

    /** The foreign key's cascade takes the token along. */
    method Delete(tenant: string, id: string) returns (removed: bool)
      modifies db`accounts, db`tokens, db`plain
      ensures removed == Owns(old(db.Rows()), tenant, id)
      ensures db.Rows() == Tables.Remove(old(db.Rows()), tenant, id)
      ensures db.View() == Tables.Remove(old(db.View()), tenant, id)
      ensures removed ==> db.accounts == old(db.accounts) - {id} && db.tokens == old(db.tokens) - {id}
      ensures !removed ==> db.accounts == old(db.accounts) && db.tokens == old(db.tokens)
    {
      removed := id in db.accounts && db.accounts[id].tenant == tenant;
      if removed {
        db.accounts := db.accounts - {id};
        db.tokens := db.tokens - {id};
        db.plain := db.plain - {id};
      }
    }

    /** `ORDER BY updated_at DESC`: an account that was updated no earlier than the others. */
    method Newest(ids: set<string>) returns (id: string)
      requires ids != {} && ids <= db.accounts.Keys
      ensures id in ids && forall x | x in ids :: db.accounts[x].updatedAt <= db.accounts[id].updatedAt
    {
      ghost var latest := Latest(db.accounts, ids);
      id :| id in ids && forall x | x in ids :: db.accounts[x].updatedAt <= db.accounts[id].updatedAt;
    }

    /** Every account once, the most recently updated first. */
    method ListAll() returns (out: seq<Account>)
      requires Consistent(db.Rows())
      ensures forall i, j | 0 <= i < j < |out| :: out[i].id != out[j].id
      ensures forall i, j | 0 <= i < j < |out| :: out[i].updatedAt >= out[j].updatedAt
      ensures forall i | 0 <= i < |out| :: out[i].id in db.accounts && db.accounts[out[i].id] == out[i]
      ensures forall id | id in db.accounts :: db.accounts[id] in out
    {
      out := [];
      var rest := db.accounts.Keys;
      while rest != {}
        invariant rest <= db.accounts.Keys && ListsAllBut(db.accounts, rest, out)
      {
        var id := Newest(rest);
        ListsOneMore(db.accounts, rest, out, id);
        out := out + [db.accounts[id]];
        rest := rest - {id};
      }
    }
  }

  /** The newest accounts, in order, those in `rest` still missing. */
  predicate ListsAllBut(accounts: map<string, Account>, rest: set<string>, out: seq<Account>)
    requires rest <= accounts.Keys
  {
    && (forall i, j | 0 <= i < j < |out| :: out[i].id != out[j].id)
    && (forall i, j | 0 <= i < j < |out| :: out[i].updatedAt >= out[j].updatedAt)
    && (forall i | 0 <= i < |out| :: out[i].id in accounts.Keys - rest && accounts[out[i].id] == out[i])
    && (forall i | 0 <= i < |out| :: NoneNewer(accounts, rest, out[i].updatedAt))
    && (forall id | id in accounts.Keys - rest :: accounts[id] in out)
  }

  lemma ListsOneMore(accounts: map<string, Account>, rest: set<string>, out: seq<Account>, id: string)
    requires rest <= accounts.Keys && ListsAllBut(accounts, rest, out)
    requires id in rest && accounts[id].id == id && NoneNewer(accounts, rest, accounts[id].updatedAt)
    ensures ListsAllBut(accounts, rest - {id}, out + [accounts[id]])
  {
    var more := out + [accounts[id]];
    forall i | 0 <= i < |more| ensures NoneNewer(accounts, rest - {id}, more[i].updatedAt) {
      assert i < |out| ==> NoneNewer(accounts, rest, out[i].updatedAt);
    }
    forall x | x in accounts.Keys - (rest - {id}) ensures accounts[x] in more {
      if x == id {
        assert more[|out|] == accounts[x];
      } else {
        assert accounts[x] in out;
      }
    }
  }

  predicate NoneNewer(accounts: map<string, Account>, ids: set<string>, t: Instant)
    requires ids <= accounts.Keys
  {
    forall id | id in ids :: accounts[id].updatedAt <= t
  }

  lemma {:induction false} Latest(accounts: map<string, Account>, ids: set<string>) returns (id: string)
    requires ids != {} && ids <= accounts.Keys
    ensures id in ids && forall x | x in ids :: accounts[x].updatedAt <= accounts[id].updatedAt
  {
    id :| id in ids;
    var rest := ids - {id};
    assert forall x | x in ids :: x == id || x in rest;
    if rest != {} {
      var other := Latest(accounts, rest);
      id := if accounts[id].updatedAt <= accounts[other].updatedAt then other else id;
    }
  }
}
