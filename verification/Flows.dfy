/**
 * The registry of pending OAuth flows (`src/storage/flows.rs`): single use, ten minutes to
 * live, expired rows purged whenever a flow is inserted. It refines a ledger that never purges.
 */
module Flows {
  import opened Prelude
  import opened Crypto
  import opened Database

  const FLOW_TTL_SECS := 600

  datatype PendingFlow = PendingFlow(verifier: Secret, tenant: string, createdAt: int)

  datatype FlowError = UnknownState | Expired | Storage

  type Rows = map<string, FlowRow>

  /** `DELETE FROM oauth_flows WHERE created_at <= now - TTL`. */
  function Purge(rows: Rows, now: int): Rows {
    map s | s in rows && rows[s].createdAt > now - FLOW_TTL_SECS :: rows[s]
  }

  /** The insert's own error is ignored, so a colliding state changes nothing. */
  function InsertRow(rows: Rows, state: string, row: FlowRow): Rows {
    var kept := Purge(rows, row.createdAt);
    if state in kept then kept else kept[state := row]
  }

  /** What `take` returns; a present row is consumed whatever the outcome. */
  function Resolve(aead: Aead, key: seq<byte>, rows: Rows, state: string, now: int): Result<PendingFlow, FlowError> {
    if state !in rows then Err(UnknownState)
    else if now - rows[state].createdAt > FLOW_TTL_SECS then Err(Expired)
    else
      match Decrypt(aead, key, rows[state].verifier)
      case Err(_) => Err(FlowError.Storage)
      case Ok(bytes) => if IsUtf8(bytes) then Ok(PendingFlow(bytes, rows[state].tenant, rows[state].createdAt))
                        else Err(FlowError.Storage)
  }

  class FlowStore {
    const db: Connection
    const aead: Aead
    const key: seq<byte>

    constructor (db: Connection, aead: Aead, key: seq<byte>)
      requires aead.Sound()
      ensures this.db == db && this.aead == aead && this.key == key
    {
      this.db := db;
      this.aead := aead;
      this.key := key;
    }

    method Insert(verifier: Secret, tenant: string, state: string, now: int)
      requires aead.Sound()
      modifies db`flows
      ensures exists nonce :: |nonce| == NONCE_LEN &&
                db.flows == InsertRow(old(db.flows), state, FlowRow(Frame(aead, key, nonce, verifier), tenant, now))
      ensures state in db.flows && forall s | s != state :: s in db.flows <==>
                s in old(db.flows) && now - old(db.flows)[s].createdAt < 600
      ensures forall s | s in db.flows && s in old(db.flows) && now - old(db.flows)[s].createdAt < 600 ::
                db.flows[s] == old(db.flows)[s]
    {
      var blob := Encrypt(aead, key, verifier);
      db.flows := map s | s in db.flows && db.flows[s].createdAt > now - FLOW_TTL_SECS :: db.flows[s];
      if state !in db.flows {
        db.flows := db.flows[state := FlowRow(blob, tenant, now)];
      }
    }

    method Take(state: string, now: int) returns (r: Result<PendingFlow, FlowError>)
      modifies db`flows
      ensures r == Resolve(aead, key, old(db.flows), state, now)
      ensures db.flows == old(db.flows) - {state}
      ensures r == Err(UnknownState) <==> state !in old(db.flows)
      ensures r == Err(Expired) <==> state in old(db.flows) && now - old(db.flows)[state].createdAt > 600
      ensures r.Ok? ==> r.value.tenant == old(db.flows)[state].tenant
      ensures r.Ok? ==> Decrypt(aead, key, old(db.flows)[state].verifier) == Ok(r.value.verifier)
    {
      if state !in db.flows {
        assert db.flows == db.flows - {state};
        return Err(UnknownState);
      }
      var row := db.flows[state];
      db.flows := db.flows - {state};
      if now - row.createdAt > FLOW_TTL_SECS {
        return Err(Expired);
      }
      var verifier := Decrypt(aead, key, row.verifier);
      match verifier
      case Err(_) => r := Err(FlowError.Storage);
      case Ok(bytes) =>
        r := if IsUtf8(bytes) then Ok(PendingFlow(bytes, row.tenant, row.createdAt)) else Err(FlowError.Storage);
    }
  }

  // ---- Runs -------------------------------------------------------------------------

  /** Calls on one database; `Reopen` is a restart, possibly under another master key. */
  datatype FlowOp =
    | Begin(state: string, verifier: Secret, tenant: string, nonce: seq<byte>, at: int)
    | Callback(state: string, at: int)
    | Reopen(key: seq<byte>)

  datatype Registry = Registry(rows: Rows, key: seq<byte>)

  function Step(aead: Aead, r: Registry, op: FlowOp): Registry {
    match op
    case Begin(state, verifier, tenant, nonce, at) =>
      r.(rows := InsertRow(r.rows, state, FlowRow(Frame(aead, r.key, nonce, verifier), tenant, at)))
    case Callback(state, _) => r.(rows := r.rows - {state})
    case Reopen(key) => r.(key := key)
  }

  function After(aead: Aead, key: seq<byte>, ops: seq<FlowOp>): Registry {
    if ops == [] then Registry(map[], key)
    else Step(aead, After(aead, key, ops[..|ops| - 1]), ops[|ops| - 1])
  }

  /** Time never runs backwards, not even past the last call. */
  predicate Monotone(ops: seq<FlowOp>, now: int) {
    ops == [] ||
    var op := ops[|ops| - 1];
    if op.Reopen? then Monotone(ops[..|ops| - 1], now) else op.at <= now && Monotone(ops[..|ops| - 1], op.at)
  }

  /** The CSRF states are fresh, the nonces have their length; restarts are under the same key. */
  predicate WellFormed(ops: seq<FlowOp>, key: seq<byte>) {
    && (forall i, j | 0 <= i < j < |ops| && ops[i].Begin? && ops[j].Begin? :: ops[i].state != ops[j].state)
    && (forall i | 0 <= i < |ops| && ops[i].Begin? :: |ops[i].nonce| == NONCE_LEN)
    && (forall i | 0 <= i < |ops| && ops[i].Reopen? :: ops[i].key == key)
  }

  /** The ledger: every flow begun and not yet called back, nothing purged. */
  function Ledger(ops: seq<FlowOp>): map<string, PendingFlow> {
    if ops == [] then map[]
    else
      var ledger, op := Ledger(ops[..|ops| - 1]), ops[|ops| - 1];
      match op
      case Begin(state, verifier, tenant, _, at) => ledger[state := PendingFlow(verifier, tenant, at)]
      case Callback(state, _) => ledger - {state}
      case Reopen(_) => ledger
  }

  /** When the latest insert, hence the latest purge, ran. */
  function LastInsert(ops: seq<FlowOp>): Option<int> {
    if ops == [] then None
    else if ops[|ops| - 1].Begin? then Some(ops[|ops| - 1].at)
    else LastInsert(ops[..|ops| - 1])
  }

  /** Old enough for the latest purge. */
  predicate Purged(flow: PendingFlow, last: Option<int>) {
    last.Some? && flow.createdAt <= last.value - FLOW_TTL_SECS
  }

  ghost predicate Represents(aead: Aead, key: seq<byte>, row: FlowRow, flow: PendingFlow) {
    && row.tenant == flow.tenant && row.createdAt == flow.createdAt
    && Decrypt(aead, key, row.verifier) == Ok(flow.verifier)
  }

  lemma {:induction false} LedgerStates(ops: seq<FlowOp>, state: string) returns (i: nat)
    requires state in Ledger(ops)
    ensures i < |ops| && ops[i].Begin? && ops[i].state == state
  {
    var op := ops[|ops| - 1];
    if op.Begin? && op.state == state {
      i := |ops| - 1;
    } else {
      i := LedgerStates(ops[..|ops| - 1], state);
    }
  }

  lemma StateIsFresh(ops: seq<FlowOp>, key: seq<byte>)
    requires WellFormed(ops, key) && ops != [] && ops[|ops| - 1].Begin?
    ensures ops[|ops| - 1].state !in Ledger(ops[..|ops| - 1])
  {
    if ops[|ops| - 1].state in Ledger(ops[..|ops| - 1]) {
      var i := LedgerStates(ops[..|ops| - 1], ops[|ops| - 1].state);
    }
  }

  lemma {:induction false} LastInsertIsPast(ops: seq<FlowOp>, now: int)
    requires Monotone(ops, now)
    ensures LastInsert(ops).Some? ==> LastInsert(ops).value <= now
  {
    if ops != [] {
      var op := ops[|ops| - 1];
      LastInsertIsPast(ops[..|ops| - 1], if op.Reopen? then now else op.at);
    }
  }

  /** The table is the ledger minus exactly what the latest purge could see. */
  lemma {:induction false} TableIsPurgedLedger(aead: Aead, key: seq<byte>, ops: seq<FlowOp>, now: int)
    requires aead.Sound() && WellFormed(ops, key) && Monotone(ops, now)
    ensures After(aead, key, ops).key == key
    ensures var rows, ledger, last := After(aead, key, ops).rows, Ledger(ops), LastInsert(ops);
            && (forall s :: s in rows <==> s in ledger && !Purged(ledger[s], last))
            && (forall s | s in rows :: Represents(aead, key, rows[s], ledger[s]))
  {
    if ops != [] {
      var front, op := ops[..|ops| - 1], ops[|ops| - 1];
      var at := if op.Reopen? then now else op.at;
      TableIsPurgedLedger(aead, key, front, at);
      LastInsertIsPast(front, at);
      if op.Begin? {
        DecryptUndoesFrame(aead, key, op.nonce, op.verifier);
        StateIsFresh(ops, key);
      }
    }
  }

  /**
   * The purging table against the ledger, to the second: younger than ten minutes always
   * resolves, older never does, and at exactly ten minutes an insert in that very second,
   * and only that, loses the flow.
   */
  lemma TableRefinesLedger(aead: Aead, key: seq<byte>, ops: seq<FlowOp>, state: string, now: int)
    requires aead.Sound() && WellFormed(ops, key) && Monotone(ops, now)
    ensures var outcome, ledger := Resolve(aead, key, After(aead, key, ops).rows, state, now), Ledger(ops);
            if state !in ledger then outcome == Err(UnknownState)
            else
              var age := now - ledger[state].createdAt;
              && (age < 600 ==> outcome == Ok(ledger[state]))
              && (age > 600 ==>
                    outcome == Err(if Purged(ledger[state], LastInsert(ops)) then UnknownState else Expired))
              && (age == 600 ==>
                    outcome == if LastInsert(ops) == Some(now) then Err(UnknownState) else Ok(ledger[state]))
  {
    TableIsPurgedLedger(aead, key, ops, now);
    LastInsertIsPast(ops, now);
  }

  // ---- Conservation -----------------------------------------------------------------

  /** What became of the flows whose state is of interest. */
  datatype Tally = Tally(inserted: nat, taken: nat, rejected: nat, purged: nat)

  function Count(aead: Aead, key: seq<byte>, ops: seq<FlowOp>, interest: set<string>): Tally {
    if ops == [] then Tally(0, 0, 0, 0)
    else
      var t, r, op := Count(aead, key, ops[..|ops| - 1], interest), After(aead, key, ops[..|ops| - 1]), ops[|ops| - 1];
      match op
      case Begin(state, _, _, _, at) =>
        var kept := Purge(r.rows, at);
        var effective := state in interest && state !in kept;
        t.(inserted := t.inserted + if effective then 1 else 0,
           purged := t.purged + |(r.rows.Keys - kept.Keys) * interest|)
      case Callback(state, at) =>
        if state !in r.rows || state !in interest then t
        else if Resolve(aead, r.key, r.rows, state, at).Ok? then t.(taken := t.taken + 1)
        else t.(rejected := t.rejected + 1)
      case Reopen(_) => t
  }

  lemma InsertCounts(rows: Rows, state: string, row: FlowRow, interest: set<string>)
    ensures var kept := Purge(rows, row.createdAt);
            && |rows.Keys * interest| == |kept.Keys * interest| + |(rows.Keys - kept.Keys) * interest|
            && |InsertRow(rows, state, row).Keys * interest|
               == |kept.Keys * interest| + if state in interest && state !in kept then 1 else 0
  {
    var kept := Purge(rows, row.createdAt).Keys;
    assert kept <= rows.Keys;
    SplitSet(rows.Keys, kept, interest);
    AddToSet(kept, state, interest);
    assert InsertRow(rows, state, row).Keys == kept + {state};
  }

  lemma TakeCounts(rows: Rows, state: string, interest: set<string>)
    ensures |rows.Keys * interest|
         == |(rows - {state}).Keys * interest| + if state in rows && state in interest then 1 else 0
  {
    var left := (rows - {state}).Keys;
    AddToSet(left, state, interest);
    assert rows.Keys == if state in rows then left + {state} else left;
  }

  lemma SplitSet<T>(whole: set<T>, part: set<T>, interest: set<T>)
    requires part <= whole
    ensures |whole * interest| == |part * interest| + |(whole - part) * interest|
  {
    assert whole * interest == part * interest + (whole - part) * interest;
  }

  lemma AddToSet<T>(s: set<T>, x: T, interest: set<T>)
    ensures |(s + {x}) * interest| == |s * interest| + if x in interest && x !in s then 1 else 0
  {
    if x in interest && x !in s {
      assert (s + {x}) * interest == s * interest + {x};
    } else {
      assert (s + {x}) * interest == s * interest;
    }
  }

  /**
   * Every effective insert is still pending, was taken, was rejected as expired or
   * undecryptable, or was purged: for any set of states, any run and any restarts.
   */
  lemma {:induction false} FlowsAreConserved(aead: Aead, key: seq<byte>, ops: seq<FlowOp>, interest: set<string>)
    ensures var t := Count(aead, key, ops, interest);
            t.inserted == |After(aead, key, ops).rows.Keys * interest| + t.taken + t.rejected + t.purged
  {
    if ops == [] {
      assert After(aead, key, ops).rows.Keys * interest == {};
    } else {
      var front, op := ops[..|ops| - 1], ops[|ops| - 1];
      FlowsAreConserved(aead, key, front, interest);
      var r := After(aead, key, front);
      match op
      case Begin(state, verifier, tenant, nonce, at) =>
        InsertCounts(r.rows, state, FlowRow(Frame(aead, r.key, nonce, verifier), tenant, at), interest);
      case Callback(state, at) =>
        TakeCounts(r.rows, state, interest);
      case Reopen(_) =>
    }
  }

  /** The insert a pending row came from: nothing called its state back since. */
  lemma {:induction false} PendingHasOrigin(aead: Aead, key: seq<byte>, ops: seq<FlowOp>, state: string)
    returns (i: nat)
    requires state in After(aead, key, ops).rows
    ensures i < |ops| && ops[i].Begin? && ops[i].state == state
    ensures After(aead, key, ops).rows[state]
         == FlowRow(Frame(aead, After(aead, key, ops[..i]).key, ops[i].nonce, ops[i].verifier),
                    ops[i].tenant, ops[i].at)
    ensures forall j | i < j < |ops| && ops[j].Callback? :: ops[j].state != state
  {
    var front, op := ops[..|ops| - 1], ops[|ops| - 1];
    if op.Begin? && op.state == state && state !in Purge(After(aead, key, front).rows, op.at) {
      i := |ops| - 1;
    } else {
      i := PendingHasOrigin(aead, key, front, state);
      assert ops[..i] == front[..i] && ops[i] == front[i];
      forall j | i < j < |ops| && ops[j].Callback? ensures ops[j].state != state {
        if j < |ops| - 1 {
          assert ops[j] == front[j];
        }
      }
    }
  }

  predicate SucceedsAt(aead: Aead, key: seq<byte>, ops: seq<FlowOp>, j: nat) {
    && j < |ops| && ops[j].Callback?
    && var r := After(aead, key, ops[..j]); Resolve(aead, r.key, r.rows, ops[j].state, ops[j].at).Ok?
  }

  /** A successful callback returns what the insert it consumes recorded, nothing else's. */
  lemma CallbackReturnsItsFlow(aead: Aead, key: seq<byte>, ops: seq<FlowOp>, j: nat) returns (i: nat)
    requires SucceedsAt(aead, key, ops, j)
    ensures i < j && ops[i].Begin? && ops[i].state == ops[j].state
    ensures forall k | i < k < j && ops[k].Callback? :: ops[k].state != ops[j].state
    ensures var r := After(aead, key, ops[..j]);
            var flow := Resolve(aead, r.key, r.rows, ops[j].state, ops[j].at).value;
            && flow.tenant == ops[i].tenant && flow.createdAt == ops[i].at
            && (aead.Sound() && |ops[i].nonce| == NONCE_LEN && r.key == After(aead, key, ops[..i]).key
                ==> flow.verifier == ops[i].verifier)
  {
    i := PendingHasOrigin(aead, key, ops[..j], ops[j].state);
    assert ops[..j][..i] == ops[..i];
    forall k | i < k < j && ops[k].Callback? ensures ops[k].state != ops[j].state {
      assert ops[..j][k] == ops[k];
    }
    if aead.Sound() && |ops[i].nonce| == NONCE_LEN {
      DecryptUndoesFrame(aead, After(aead, key, ops[..i]).key, ops[i].nonce, ops[i].verifier);
    }
  }

  /** Two successful callbacks consume two different inserts. */
  lemma InsertYieldsOneTake(aead: Aead, key: seq<byte>, ops: seq<FlowOp>, j: nat, k: nat) returns (i: nat, i': nat)
    requires j < k && SucceedsAt(aead, key, ops, j) && SucceedsAt(aead, key, ops, k)
    ensures i < j && i' < k && i != i'
    ensures ops[i].Begin? && ops[i].state == ops[j].state && ops[i'].Begin? && ops[i'].state == ops[k].state
    ensures ops[j].state == ops[k].state ==> i < j < i' < k
  {
    i := CallbackReturnsItsFlow(aead, key, ops, j);
    i' := CallbackReturnsItsFlow(aead, key, ops, k);
  }
}
