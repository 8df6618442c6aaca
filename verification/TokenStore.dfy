/**
 * The encrypted token table (`src/storage/tokens.rs`) and the plain map it stands for: from
 * account id to token.
 */
module TokenStore {
  import opened Prelude
  import opened Timestamps
  import Rfc3339
  import opened Crypto
  import opened Tables
  import opened Database

  // ---- Rows -------------------------------------------------------------------------

  function PrintTime(t: Option<Instant>): Option<string> {
    if t.None? then None else Some(Rfc3339.Print(t.value))
  }

  /** An unreadable timestamp counts as absent. */
  function ReadTime(t: Option<string>): Option<Instant> {
    if t.None? then None
    else
      var i := Rfc3339.Parse(t.value);
      if i.Some? && 0 <= i.value < END_OF_TIME then Some(i.value) else None
  }

  function Encode(aead: Aead, key: seq<byte>, nonce1: seq<byte>, nonce2: seq<byte>, token: StoredToken): TokenRow {
    TokenRow(Frame(aead, key, nonce1, token.access), Frame(aead, key, nonce2, token.refresh), token.scope,
             PrintTime(token.expiresAt), PrintTime(token.lastUsedAt), Rfc3339.Print(token.updatedAt))
  }

  function Open(aead: Aead, key: seq<byte>, blob: seq<byte>): Result<Secret, AppError> {
    match Decrypt(aead, key, blob)
    case Err(e) => Err(e)
    case Ok(bytes) => if IsUtf8(bytes) then Ok(bytes) else Err(Storage)
  }

  /** `get` of a present row; `now` replaces an unreadable `updated_at`. */
  function Decode(aead: Aead, key: seq<byte>, row: TokenRow, now: Instant): Result<StoredToken, AppError> {
    var access, refresh := Open(aead, key, row.access), Open(aead, key, row.refresh);
    if access.Err? then Err(access.error)
    else if refresh.Err? then Err(refresh.error)
    else
      var updated := ReadTime(Some(row.updatedAt));
      Ok(StoredToken(access.value, refresh.value, row.scope, ReadTime(row.expiresAt), ReadTime(row.lastUsedAt),
                     if updated.Some? then updated.value else now))
  }

  /** A row some `upsert` under this key may have written. */
  ghost predicate Intact(aead: Aead, key: seq<byte>, row: TokenRow) {
    exists nonce1, nonce2, token ::
      |nonce1| == NONCE_LEN && |nonce2| == NONCE_LEN && row == Encode(aead, key, nonce1, nonce2, token)
  }

  lemma DecodeUndoesEncode(aead: Aead, key: seq<byte>, nonce1: seq<byte>, nonce2: seq<byte>, token: StoredToken,
                           now: Instant)
    requires aead.Sound() && |nonce1| == NONCE_LEN && |nonce2| == NONCE_LEN
    ensures Decode(aead, key, Encode(aead, key, nonce1, nonce2, token), now) == Ok(token)
  {
    DecryptUndoesFrame(aead, key, nonce1, token.access);
    DecryptUndoesFrame(aead, key, nonce2, token.refresh);
    ReadUndoesPrint(Some(token.updatedAt));
    ReadUndoesPrint(token.expiresAt);
    ReadUndoesPrint(token.lastUsedAt);
  }

  lemma ReadUndoesPrint(t: Option<Instant>)
    ensures ReadTime(PrintTime(t)) == t
  {
    if t.Some? {
      Rfc3339.ParseUndoesPrint(t.value);
    }
  }

  /** The SQL condition of `list_inactive`, on texts. */
  predicate InactiveText(row: TokenRow, cutoff: string) {
    row.lastUsedAt.None? || Rfc3339.LexLess(row.lastUsedAt.value, cutoff)
  }

  /** Comparing texts selects exactly the tokens last used before the cutoff instant. */
  lemma TextConditionIsTimeCondition(aead: Aead, key: seq<byte>, row: TokenRow, cutoff: int)
    requires aead.Sound() && Intact(aead, key, row)
    ensures Decode(aead, key, row, 0).Ok?
    ensures InactiveText(row, Rfc3339.PrintAny(cutoff)) <==> Inactive(Decode(aead, key, row, 0).value, cutoff)
  {
    var nonce1, nonce2, token :| |nonce1| == NONCE_LEN && |nonce2| == NONCE_LEN
                                 && row == Encode(aead, key, nonce1, nonce2, token);
    DecodeUndoesEncode(aead, key, nonce1, nonce2, token, 0);
    if token.lastUsedAt.Some? {
      Rfc3339.TextCutoffIsTimeCutoff(token.lastUsedAt.value, cutoff);
    }
  }

  // ---- The table as a map -----------------------------------------------------------

  ghost predicate AllIntact(aead: Aead, key: seq<byte>, rows: map<string, TokenRow>) {
    forall id | id in rows :: Intact(aead, key, rows[id])
  }

  /** The readable rows of a table, read. */
  function ReadRows<R, T>(read: R -> Option<T>, rows: map<string, R>): map<string, T> {
    map id | id in rows && read(rows[id]).Some? :: read(rows[id]).value
  }

  lemma WriteRow<R, T>(read: R -> Option<T>, rows: map<string, R>, id: string, row: R)
    requires read(row).Some?
    ensures ReadRows(read, rows[id := row]) == ReadRows(read, rows)[id := read(row).value]
  {
  }

  lemma EraseRow<R, T>(read: R -> Option<T>, rows: map<string, R>, id: string)
    ensures ReadRows(read, rows - {id}) == ReadRows(read, rows) - {id}
  {
  }

  function Reader(aead: Aead, key: seq<byte>): TokenRow -> Option<StoredToken> {
    row => match Decode(aead, key, row, 0)
           case Ok(token) => Some(token)
           case Err(_) => None
  }

  lemma ReaderReadsBack(aead: Aead, key: seq<byte>, nonce1: seq<byte>, nonce2: seq<byte>, token: StoredToken)
    requires aead.Sound() && |nonce1| == NONCE_LEN && |nonce2| == NONCE_LEN
    ensures Reader(aead, key)(Encode(aead, key, nonce1, nonce2, token)) == Some(token)
  {
    DecodeUndoesEncode(aead, key, nonce1, nonce2, token, 0);
  }

  function DecodeAll(aead: Aead, key: seq<byte>, rows: map<string, TokenRow>): map<string, StoredToken> {
    ReadRows(Reader(aead, key), rows)
  }

  /** A row whose secrets were just encrypted is intact, and the table then reads as updated. */
  lemma RowJoinsTable(aead: Aead, key: seq<byte>, rows: map<string, TokenRow>, id: string, row: TokenRow,
                      nonce1: seq<byte>, nonce2: seq<byte>, token: StoredToken)
    requires aead.Sound() && AllIntact(aead, key, rows) && |nonce1| == NONCE_LEN && |nonce2| == NONCE_LEN
    requires row == Encode(aead, key, nonce1, nonce2, token)
    ensures AllIntact(aead, key, rows[id := row])
    ensures DecodeAll(aead, key, rows[id := row]) == DecodeAll(aead, key, rows)[id := token]
  {
    ReaderReadsBack(aead, key, nonce1, nonce2, token);
    WriteRow(Reader(aead, key), rows, id, row);
  }

  /** `upsert` and `delete` as they reach the table, with the nonces they happened to draw. */
  datatype TokenOp =
    | Write(id: string, token: StoredToken, nonce1: seq<byte>, nonce2: seq<byte>)
    | Erase(id: string)

  predicate Drawn(ops: seq<TokenOp>) {
    forall i | 0 <= i < |ops| && ops[i].Write? :: |ops[i].nonce1| == NONCE_LEN && |ops[i].nonce2| == NONCE_LEN
  }

  function Stored(aead: Aead, key: seq<byte>, ops: seq<TokenOp>): map<string, TokenRow> {
    if ops == [] then map[]
    else
      var rows, op := Stored(aead, key, ops[..|ops| - 1]), ops[|ops| - 1];
      match op
      case Write(id, token, nonce1, nonce2) => rows[id := Encode(aead, key, nonce1, nonce2, token)]
      case Erase(id) => rows - {id}
  }

  function Plain(ops: seq<TokenOp>): map<string, StoredToken> {
    if ops == [] then map[]
    else
      var tokens, op := Plain(ops[..|ops| - 1]), ops[|ops| - 1];
      match op
      case Write(id, token, _, _) => tokens[id := token]
      case Erase(id) => tokens - {id}
  }

  /** For any run and any nonces, the encrypted table reads as the plain map. */
  lemma {:induction false} TableRefinesMap(aead: Aead, key: seq<byte>, ops: seq<TokenOp>)
    requires aead.Sound() && Drawn(ops)
    ensures AllIntact(aead, key, Stored(aead, key, ops))
    ensures DecodeAll(aead, key, Stored(aead, key, ops)) == Plain(ops)
  {
    if ops != [] {
      var front, op := ops[..|ops| - 1], ops[|ops| - 1];
      TableRefinesMap(aead, key, front);
      match op
      case Write(id, token, nonce1, nonce2) =>
        var row := Encode(aead, key, nonce1, nonce2, token);
        RowJoinsTable(aead, key, Stored(aead, key, front), id, row, nonce1, nonce2, token);
      case Erase(id) =>
        EraseRow(Reader(aead, key), Stored(aead, key, front), id);
    }
  }

  // ---- The store --------------------------------------------------------------------

  class SqliteTokenStore {
    const db: Connection
    const aead: Aead
    const key: seq<byte>

    constructor (db: Connection, aead: Aead, key: seq<byte>)
      requires aead.Sound()
      ensures this.db == db && this.aead == aead && this.key == key
    {
      this.db := db;
      this.aead := aead;
      this.key := key;
    }

    /** The schema holds, every row is one of ours, and `plain` is what the rows decrypt to. */
    ghost predicate Valid()
      reads db
    {
      && aead.Sound() && Consistent(db.Rows()) && AllIntact(aead, key, db.tokens)
      && db.plain == DecodeAll(aead, key, db.tokens)
    }

    /** Under `Valid` no row is unreadable, so nothing is missing from the view. */
    lemma ViewIsComplete()
      requires Valid()
      ensures db.plain.Keys == db.tokens.Keys
    {
      forall id | id in db.tokens ensures Decode(aead, key, db.tokens[id], 0).Ok? {
        TextConditionIsTimeCondition(aead, key, db.tokens[id], 0);
      }
    }

    /** Changes to the accounts within the schema leave the tokens valid. */
    twostate lemma StaysValid()
      requires old(Valid()) && db.tokens == old(db.tokens) && db.plain == old(db.plain) && Consistent(db.Rows())
      ensures Valid()
    {
    }

    lemma ViewIsConsistent()
      requires Valid()
      ensures Consistent(db.View())
    {
      ViewIsComplete();
    }

    /** `get` of a present row, whoever wrote it. */
    method ReadRow(row: TokenRow, now: Instant) returns (r: Result<StoredToken, AppError>)
      ensures r == Decode(aead, key, row, now)
    {
      var access := Open(aead, key, row.access);
      if access.Err? {
        return Err(access.error);
      }
      var refresh := Open(aead, key, row.refresh);
      if refresh.Err? {
        return Err(refresh.error);
      }
      var updated := ReadTime(Some(row.updatedAt));
      r := Ok(StoredToken(access.value, refresh.value, row.scope, ReadTime(row.expiresAt), ReadTime(row.lastUsedAt),
                          if updated.Some? then updated.value else now));
    }

    /** Fails only on a row that is not one of ours. */
    method Get(id: string, now: Instant) returns (r: Result<Option<StoredToken>, AppError>)
      ensures id !in db.tokens ==> r == Ok(None)
      ensures aead.Sound() && r.Err? ==> id in db.tokens && !Intact(aead, key, db.tokens[id])
      ensures Valid() ==> r == Ok(if id in db.plain then Some(db.plain[id]) else None)
    {
      if id !in db.tokens {
        return Ok(None);
      }
      var row := db.tokens[id];
      var token := ReadRow(row, now);
      r := match token case Ok(t) => Ok(Some(t)) case Err(e) => Err(e);
      if aead.Sound() && Intact(aead, key, row) {
        ghost var nonce1, nonce2, was :| |nonce1| == NONCE_LEN && |nonce2| == NONCE_LEN
                                         && row == Encode(aead, key, nonce1, nonce2, was);
        DecodeUndoesEncode(aead, key, nonce1, nonce2, was, now);
        DecodeUndoesEncode(aead, key, nonce1, nonce2, was, 0);
      }
    }

    method Upsert(id: string, token: StoredToken) returns (r: Result<(), AppError>)
      requires Valid()
      modifies db`tokens, db`plain
      ensures Valid()
      ensures r == if id in db.accounts then Ok(()) else Err(Storage)
      ensures db.View() == Tables.Upsert(old(db.View()), id, token)
    {
      var access := Encrypt(aead, key, token.access);
      var refresh := Encrypt(aead, key, token.refresh);
      if id !in db.accounts {
        return Err(Storage);
      }
      var row := TokenRow(access, refresh, token.scope, PrintTime(token.expiresAt), PrintTime(token.lastUsedAt),
                          Rfc3339.Print(token.updatedAt));
      ghost var nonce1 :| |nonce1| == NONCE_LEN && access == Frame(aead, key, nonce1, token.access);
      ghost var nonce2 :| |nonce2| == NONCE_LEN && refresh == Frame(aead, key, nonce2, token.refresh);
      RowJoinsTable(aead, key, db.tokens, id, row, nonce1, nonce2, token);
      db.tokens := db.tokens[id := row];
      db.plain := db.plain[id := token];
      r := Ok(());
    }

    method Delete(id: string)
      requires Valid()
      modifies db`tokens, db`plain
      ensures Valid()
      ensures db.View() == Drop(old(db.View()), id)
    {
      EraseRow(Reader(aead, key), db.tokens, id);
      db.tokens := db.tokens - {id};
      db.plain := db.plain - {id};
    }

    /** The ids of the tokens not used since the cutoff, each once. */
    method ListInactive(cutoff: int) returns (out: seq<string>)
      requires Valid()
      ensures forall i, j | 0 <= i < j < |out| :: out[i] != out[j]
      ensures forall id :: id in out <==> id in InactiveIds(db.View(), cutoff)
    {
      var rows, text := db.tokens, Rfc3339.PrintAny(cutoff);
      out := Select(rows.Keys, id => id in rows && InactiveText(rows[id], text));
      forall id | id in rows ensures InactiveText(rows[id], text) <==> id in InactiveIds(db.View(), cutoff) {
        TextConditionIsTimeCondition(aead, key, rows[id], cutoff);
      }
    }
  }

  /** `SELECT account_id … WHERE`: the matching keys, each once, in some order. */
  method Select(keys: set<string>, condition: string -> bool) returns (out: seq<string>)
    ensures forall i, j | 0 <= i < j < |out| :: out[i] != out[j]
    ensures forall id :: id in out <==> id in keys && condition(id)
  {
    out := [];
    var rest := keys;
    while rest != {}
      invariant rest <= keys
      invariant forall i, j | 0 <= i < j < |out| :: out[i] != out[j]
      invariant forall id :: id in out <==> id in keys - rest && condition(id)
    {
      var id :| id in rest;
      if condition(id) {
        out := out + [id];
      }
      rest := rest - {id};
    }
  }
}
