/**
 * The SQLite database (`src/storage/db.rs`): three tables behind one connection. Every
 * statement is one atomic step, because each takes the connection mutex for itself.
 */
module Database {
  import opened Prelude
  import opened Tables

  datatype TokenRow = TokenRow(access: seq<byte>, refresh: seq<byte>, scope: Option<string>,
                               expiresAt: Option<string>, lastUsedAt: Option<string>, updatedAt: string)

  datatype FlowRow = FlowRow(verifier: seq<byte>, tenant: string, createdAt: int)

  class Connection {
    var accounts: map<string, Account>
    var tokens: map<string, TokenRow>
    var flows: map<string, FlowRow>
    /** The tokens the rows stand for, as long as they are intact (`SqliteTokenStore.Valid`). */
    ghost var plain: map<string, StoredToken>

    /** The account and token tables. */
    ghost function Rows(): Db<TokenRow>
      reads this
    {
      Db(accounts, tokens)
    }

    /** The same tables with the tokens in plain. */
    ghost function View(): Db<StoredToken>
      reads this
    {
      Db(accounts, plain)
    }

    /** `open` and `migrate` on a fresh file. */
    constructor ()
      ensures Rows() == Db(map[], map[]) && View() == Db(map[], map[]) && flows == map[]
    {
      accounts, tokens, flows := map[], map[], map[];
      plain := map[];
    }
  }
}
