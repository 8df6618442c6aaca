/**
 * Whose tokens are where: in every interleaving each stored or carried token belongs to the
 * account it is filed under, and the tables keep their constraints
 * (`src/auth/token.rs:103-142`, `172-187`, `251-254`; `src/storage/db.rs:65-87`).
 */
module LifecycleCustody {
  import opened Prelude
  import opened Tables
  import opened TokenRules
  import opened Lifecycle

  /** Both tokens were issued to the identity the account was made for, up to ASCII case. */
  predicate IssuedTo(s: State, id: string, access: Secret, refresh: Secret) {
    && id in s.history.identity && access in s.provider.accessOf && refresh in s.provider.refreshOf
    && Lower(s.provider.accessOf[access]) == Lower(s.history.identity[id].email)
    && Lower(s.provider.refreshOf[refresh]) == Lower(s.history.identity[id].email)
  }

  /** A token stored under `id`, or read from there: its refresh token lives at `id` alone. */
  predicate Belongs(s: State, id: string, token: StoredToken) {
    && IssuedTo(s, id, token.access, token.refresh)
    && token.refresh in s.history.home && s.history.home[token.refresh] == id
  }

  /** A refresh token known to the consent that received it and to nobody else yet. */
  predicate Unshared(s: State, refresh: Secret) {
    refresh in s.provider.refreshOf && refresh !in s.history.home
  }

  predicate ForAccount(s: State, a: Account) {
    a.id in s.history.identity && s.history.identity[a.id] == Who(a.tenant, a.email)
  }

  predicate PhaseOk(s: State, p: Phase) {
    match p
    case BumpWrite(id, read) => Belongs(s, id, read)
    case Exchange(id, _, current) => Belongs(s, id, current)
    case RefreshWrite(id, _, current, renewed) => Belongs(s, id, current) && Belongs(s, id, renewed)
    case Resolve(_, grant, refresh) =>
      && Unshared(s, refresh) && grant.access in s.provider.accessOf
      && s.provider.accessOf[grant.access] == s.provider.refreshOf[refresh]
    case Lookup(_, email, _, grant, refresh) =>
      && Unshared(s, refresh) && grant.access in s.provider.accessOf
      && s.provider.accessOf[grant.access] == s.provider.refreshOf[refresh] == email
    case CheckRow(account, token) =>
      Unshared(s, token.refresh) && ForAccount(s, account) && IssuedTo(s, account.id, token.access, token.refresh)
    case CreateRow(account, token) =>
      Unshared(s, token.refresh) && ForAccount(s, account) && IssuedTo(s, account.id, token.access, token.refresh)
    case ConsentWrite(account, token) =>
      Unshared(s, token.refresh) && ForAccount(s, account) && IssuedTo(s, account.id, token.access, token.refresh)
    case Got(id, access) =>
      && id in s.history.identity && access in s.provider.accessOf
      && Lower(s.provider.accessOf[access]) == Lower(s.history.identity[id].email)
    case _ => true
  }

  /** The refresh token a consent in progress holds. */
  function Held(p: Phase): Option<Secret> {
    match p
    case Resolve(_, _, refresh) => Some(refresh)
    case Lookup(_, _, _, _, refresh) => Some(refresh)
    case CheckRow(_, token) => Some(token.refresh)
    case CreateRow(_, token) => Some(token.refresh)
    case ConsentWrite(_, token) => Some(token.refresh)
    case _ => None
  }

  predicate TablesOk(s: State) {
    && Consistent(s.db)
    && (forall id | id in s.db.accounts :: ForAccount(s, s.db.accounts[id]))
    && (forall id | id in s.db.tokens :: Belongs(s, id, s.db.tokens[id]))
    && s.history.home.Keys <= s.provider.refreshOf.Keys
  }

  predicate TasksOk(s: State) {
    && (forall t | t in s.tasks :: PhaseOk(s, s.tasks[t]))
    && (forall t, u | t in s.tasks && u in s.tasks && t != u && Held(s.tasks[t]).Some? ::
          Held(s.tasks[t]) != Held(s.tasks[u]))
  }

  predicate Custody(s: State) {
    TablesOk(s) && TasksOk(s)
  }

  // ---- What grows -------------------------------------------------------------------

  predicate Extends<K, V(==)>(m: map<K, V>, m': map<K, V>) {
    forall k | k in m :: k in m' && m'[k] == m[k]
  }

  /** No record of an identity, an issued token or a home is ever altered. */
  predicate Grows(s: State, s': State) {
    && Extends(s.history.identity, s'.history.identity) && Extends(s.history.home, s'.history.home)
    && Extends(s.provider.accessOf, s'.provider.accessOf) && Extends(s.provider.refreshOf, s'.provider.refreshOf)
  }

  lemma PhaseStaysOk(s: State, s': State, p: Phase)
    requires PhaseOk(s, p) && Grows(s, s')
    requires Held(p).Some? ==> Held(p).value !in s'.history.home
    ensures PhaseOk(s', p)
  {
  }

  /** A step in which no new home is one another consent holds leaves the other tasks in order. */
  lemma TasksStayOk(s: State, s': State, t: TaskId, p': Phase)
    requires TasksOk(s) && Grows(s, s') && s'.tasks == s.tasks[t := p'] && PhaseOk(s', p')
    requires forall u | u in s.tasks && u != t && Held(s.tasks[u]).Some? ::
               Held(s.tasks[u]).value !in s'.history.home && Held(s.tasks[u]) != Held(p')
    ensures TasksOk(s')
  {
    forall u | u in s'.tasks ensures PhaseOk(s', s'.tasks[u]) {
      if u != t {
        assert u in s.tasks && s'.tasks[u] == s.tasks[u];
        PhaseStaysOk(s, s', s.tasks[u]);
      }
    }
    forall u, v | u in s'.tasks && v in s'.tasks && u != v && Held(s'.tasks[u]).Some?
      ensures Held(s'.tasks[u]) != Held(s'.tasks[v])
    {
      assert u != t ==> u in s.tasks && s'.tasks[u] == s.tasks[u];
      assert v != t ==> v in s.tasks && s'.tasks[v] == s.tasks[v];
    }
  }

  lemma BelongsGrows(s: State, s': State, id: string, token: StoredToken)
    requires Belongs(s, id, token) && Grows(s, s')
    ensures Belongs(s', id, token)
  {
  }

  // ---- Steps that add to the records ------------------------------------------------

  /** Tables only lose rows or change times and status; records only grow. */
  lemma TablesStayOk(s: State, s': State)
    requires TablesOk(s) && Grows(s, s') && Consistent(s'.db)
    requires s'.history.home.Keys <= s'.provider.refreshOf.Keys
    requires forall id | id in s'.db.accounts :: ForAccount(s', s'.db.accounts[id])
    requires forall id | id in s'.db.tokens ::
               (id in s.db.tokens && s'.db.tokens[id] == s.db.tokens[id]) || Belongs(s', id, s'.db.tokens[id])
    ensures TablesOk(s')
  {
    forall id | id in s'.db.tokens ensures Belongs(s', id, s'.db.tokens[id]) {
      if id in s.db.tokens && s'.db.tokens[id] == s.db.tokens[id] {
        BelongsGrows(s, s', id, s.db.tokens[id]);
      }
    }
  }

  lemma ExchangeKeepsTables(s: State, t: TaskId, p: Phase, c: Choice)
    requires Custody(s) && t in s.tasks && s.tasks[t] == p && p.Exchange? && CanAct(s, p, c)
    ensures TablesOk(Take(s, t, p, c)) && Grows(s, Take(s, t, p, c))
    ensures PhaseOk(Take(s, t, p, c), Take(s, t, p, c).tasks[t])
  {
    var s' := Take(s, t, p, c);
    assert Belongs(s, p.id, p.current);
    if c.reply.Granted? {
      assert Grows(s, s');
      assert Belongs(s', p.id, Renewed(p.current, c.reply.grant, s.now));
    }
    TablesStayOk(s, s');
  }

  /** The only new home is that of a refresh token nobody holds. */
  lemma ExchangeHomesNew(s: State, t: TaskId, p: Phase, c: Choice)
    requires p.Exchange? && CanAct(s, p, c)
    ensures var s' := Take(s, t, p, c);
            && Held(s'.tasks[t]).None?
            && forall r | r in s'.history.home :: r in s.history.home || r !in s.provider.refreshOf
  {
  }

  lemma ExchangeKeepsCustody(s: State, t: TaskId, p: Phase, c: Choice)
    requires Custody(s) && t in s.tasks && s.tasks[t] == p && p.Exchange? && CanAct(s, p, c)
    ensures Custody(Take(s, t, p, c)) && Grows(s, Take(s, t, p, c))
  {
    var s' := Take(s, t, p, c);
    OnlyItsTaskMoves(s, t, p, c);
    ExchangeKeepsTables(s, t, p, c);
    ExchangeHomesNew(s, t, p, c);
    forall u | u in s.tasks && u != t && Held(s.tasks[u]).Some?
      ensures Held(s.tasks[u]).value !in s'.history.home && Held(s.tasks[u]) != Held(s'.tasks[t])
    {
      assert PhaseOk(s, s.tasks[u]);
    }
    TasksStayOk(s, s', t, s'.tasks[t]);
  }

  lemma CodeExchangeKeepsCustody(s: State, t: TaskId, p: Phase, c: Choice)
    requires Custody(s) && t in s.tasks && s.tasks[t] == p && p.CodeExchange? && CanAct(s, p, c)
    ensures Custody(Take(s, t, p, c)) && Grows(s, Take(s, t, p, c))
  {
    var s' := Take(s, t, p, c);
    OnlyItsTaskMoves(s, t, p, c);
    assert Grows(s, s');
    TablesStayOk(s, s');
    TasksStayOk(s, s', t, s'.tasks[t]);
  }

  lemma ResolveKeepsCustody(s: State, t: TaskId, p: Phase, c: Choice)
    requires Custody(s) && t in s.tasks && s.tasks[t] == p && p.Resolve? && CanAct(s, p, c)
    ensures Custody(Take(s, t, p, c)) && Grows(s, Take(s, t, p, c))
  {
    var s' := Take(s, t, p, c);
    OnlyItsTaskMoves(s, t, p, c);
    assert PhaseOk(s, p);
    TasksStayOk(s, s', t, s'.tasks[t]);
  }

  lemma LookupKeepsCustody(s: State, t: TaskId, p: Phase, c: Choice)
    requires Custody(s) && t in s.tasks && s.tasks[t] == p && p.Lookup? && CanAct(s, p, c)
    ensures Custody(Take(s, t, p, c)) && Grows(s, Take(s, t, p, c))
  {
    var s' := Take(s, t, p, c);
    OnlyItsTaskMoves(s, t, p, c);
    assert PhaseOk(s, p);
    var account := s'.tasks[t].account;
    assert account.id == c.id && ForAccount(s', account);
    assert Lower(account.email) == Lower(p.email);
    TablesStayOk(s, s');
    TasksStayOk(s, s', t, s'.tasks[t]);
  }

  lemma CreateKeepsTables(s: State, t: TaskId, p: Phase, c: Choice)
    requires Custody(s) && t in s.tasks && s.tasks[t] == p && p.CreateRow? && CanAct(s, p, c)
    ensures TablesOk(Take(s, t, p, c)) && Grows(s, Take(s, t, p, c))
  {
    assert PhaseOk(s, p);
    TablesStayOk(s, Take(s, t, p, c));
  }

  lemma CreateKeepsPhase(s: State, t: TaskId, p: Phase, c: Choice)
    requires p.CreateRow? && PhaseOk(s, p) && CanAct(s, p, c)
    ensures var s' := Take(s, t, p, c);
            && PhaseOk(s', s'.tasks[t]) && s'.history.home == s.history.home
            && (Held(s'.tasks[t]).Some? ==> Held(s'.tasks[t]) == Held(p))
  {
  }

  lemma CreateKeepsCustody(s: State, t: TaskId, p: Phase, c: Choice)
    requires Custody(s) && t in s.tasks && s.tasks[t] == p && p.CreateRow? && CanAct(s, p, c)
    ensures Custody(Take(s, t, p, c)) && Grows(s, Take(s, t, p, c))
  {
    var s' := Take(s, t, p, c);
    OnlyItsTaskMoves(s, t, p, c);
    CreateKeepsTables(s, t, p, c);
    CreateKeepsPhase(s, t, p, c);
    forall u | u in s.tasks && u != t && Held(s.tasks[u]).Some?
      ensures Held(s.tasks[u]).value !in s'.history.home && Held(s.tasks[u]) != Held(s'.tasks[t])
    {
      assert PhaseOk(s, s.tasks[u]) && Held(s.tasks[u]) != Held(p);
    }
    TasksStayOk(s, s', t, s'.tasks[t]);
  }

  lemma ConsentWriteKeepsCustody(s: State, t: TaskId, p: Phase, c: Choice)
    requires Custody(s) && t in s.tasks && s.tasks[t] == p && p.ConsentWrite? && CanAct(s, p, c)
    ensures Custody(Take(s, t, p, c)) && Grows(s, Take(s, t, p, c))
  {
    ConsentWriteKeepsTables(s, t, p, c);
    OnlyItsTaskMoves(s, t, p, c);
    TasksStayOk(s, Take(s, t, p, c), t, Take(s, t, p, c).tasks[t]);
  }

  lemma ConsentWriteKeepsTables(s: State, t: TaskId, p: Phase, c: Choice)
    requires Custody(s) && t in s.tasks && s.tasks[t] == p && p.ConsentWrite? && CanAct(s, p, c)
    ensures TablesOk(Take(s, t, p, c)) && Grows(s, Take(s, t, p, c))
  {
    assert PhaseOk(s, p);
    TablesStayOk(s, Take(s, t, p, c));
  }

  /** The steps that leave every record as it is. */
  predicate LeavesRecords(p: Phase) {
    !(p.Exchange? || p.CodeExchange? || p.Resolve? || p.Lookup? || p.CreateRow? || p.ConsentWrite?)
  }

  /** Identities are recorded, and tokens issued, by these steps only. */
  lemma IssuersOnly(s: State, t: TaskId, p: Phase, c: Choice)
    requires CanAct(s, p, c)
    ensures !p.Lookup? ==> Take(s, t, p, c).history.identity == s.history.identity
    ensures !p.Exchange? && !p.CodeExchange? ==> Take(s, t, p, c).provider == s.provider
  {
  }

  predicate WritesTables(p: Phase) {
    p.BumpWrite? || p.RefreshWrite? || p.DropToken? || p.MarkDisconnected? || p.RemoveRow?
  }

  lemma TokenWrites(s: State, t: TaskId, p: Phase, c: Choice)
    requires Custody(s) && t in s.tasks && s.tasks[t] == p && (p.BumpWrite? || p.RefreshWrite?) && CanAct(s, p, c)
    ensures TablesOk(Take(s, t, p, c))
  {
    var s' := Take(s, t, p, c);
    assert PhaseOk(s, p);
    if p.BumpWrite? {
      assert Belongs(s, p.id, Bumped(p.read, s.now));
    }
    TablesStayOk(s, s');
  }

  /** Tokens and rows only go, and rows keep whose they are. */
  predicate Shrinks(db: Db<StoredToken>, db': Db<StoredToken>) {
    && (forall id | id in db'.tokens :: id in db.tokens && db'.tokens[id] == db.tokens[id])
    && (forall id | id in db'.accounts ::
          && id in db.accounts && db'.accounts[id].id == db.accounts[id].id
          && db'.accounts[id].tenant == db.accounts[id].tenant && db'.accounts[id].email == db.accounts[id].email)
    && (db'.tokens.Keys <= db'.accounts.Keys || !(db.tokens.Keys <= db.accounts.Keys))
  }

  lemma RemovalsShrink(db: Db<StoredToken>, tenant: string, id: string)
    ensures Shrinks(db, Drop(db, id)) && Shrinks(db, Remove(db, tenant, id))
  {
  }

  lemma MarkShrinks(db: Db<StoredToken>, tenant: string, id: string, now: Timestamps.Instant)
    ensures Shrinks(db, SetStatus(db, tenant, id, Disconnected, now))
  {
  }

  /** Dropping, marking and removing add no row and alter nothing that custody speaks of. */
  lemma RemovalStep(s: State, t: TaskId, p: Phase, c: Choice)
    requires (p.DropToken? || p.MarkDisconnected? || p.RemoveRow?) && CanAct(s, p, c)
    ensures var s' := Take(s, t, p, c);
            Shrinks(s.db, s'.db) && s'.history == s.history && s'.provider == s.provider
  {
    RemovalsShrink(s.db, p.tenant, p.id);
    MarkShrinks(s.db, p.tenant, p.id, s.now);
  }

  lemma Removals(s: State, t: TaskId, p: Phase, c: Choice)
    requires Custody(s) && (p.DropToken? || p.MarkDisconnected? || p.RemoveRow?) && CanAct(s, p, c)
    ensures TablesOk(Take(s, t, p, c))
  {
    var s' := Take(s, t, p, c);
    RemovalStep(s, t, p, c);
    forall id | id in s'.db.accounts ensures ForAccount(s', s'.db.accounts[id]) {
      assert ForAccount(s, s.db.accounts[id]);
    }
    TablesStayOk(s, s');
  }

  lemma OnlyWritersWrite(s: State, t: TaskId, p: Phase, c: Choice)
    requires LeavesRecords(p) && !WritesTables(p) && CanAct(s, p, c)
    ensures Take(s, t, p, c).db == s.db
  {
  }

  lemma OtherTables(s: State, t: TaskId, p: Phase, c: Choice)
    requires Custody(s) && t in s.tasks && s.tasks[t] == p && LeavesRecords(p) && CanAct(s, p, c)
    ensures TablesOk(Take(s, t, p, c))
  {
    OtherRecords(s, t, p, c);
    if p.BumpWrite? || p.RefreshWrite? {
      TokenWrites(s, t, p, c);
    } else if WritesTables(p) {
      Removals(s, t, p, c);
    } else {
      OnlyWritersWrite(s, t, p, c);
      TablesStayOk(s, Take(s, t, p, c));
    }
  }

  lemma OtherRecords(s: State, t: TaskId, p: Phase, c: Choice)
    requires LeavesRecords(p) && CanAct(s, p, c)
    ensures var s' := Take(s, t, p, c);
            && s'.provider == s.provider && s'.history.home == s.history.home
            && s'.history.identity == s.history.identity
  {
  }

  lemma GetReads(s: State, t: TaskId, p: Phase, c: Choice)
    requires TablesOk(s) && p.GetRead? && CanAct(s, p, c)
    ensures PhaseOk(s, Take(s, t, p, c).tasks[t]) && Held(Take(s, t, p, c).tasks[t]) == Held(p)
  {
    var p' := Take(s, t, p, c).tasks[t];
    assert p'.LockEntry?
        || (p.id in s.db.tokens
            && (p' == BumpWrite(p.id, s.db.tokens[p.id]) || p' == Got(p.id, s.db.tokens[p.id].access)));
    if p.id in s.db.tokens {
      assert Belongs(s, p.id, s.db.tokens[p.id]);
    }
  }

  lemma GetReadsBack(s: State, t: TaskId, p: Phase, c: Choice)
    requires TablesOk(s) && p.GetReadBack? && CanAct(s, p, c)
    ensures PhaseOk(s, Take(s, t, p, c).tasks[t]) && Held(Take(s, t, p, c).tasks[t]) == Held(p)
  {
    if p.id in s.db.tokens {
      assert Belongs(s, p.id, s.db.tokens[p.id]);
    }
  }

  lemma RefreshReads(s: State, t: TaskId, p: Phase, c: Choice)
    requires TablesOk(s) && p.RefreshRead? && CanAct(s, p, c)
    ensures PhaseOk(s, Take(s, t, p, c).tasks[t]) && Held(Take(s, t, p, c).tasks[t]) == Held(p)
  {
    if p.id in s.db.tokens {
      assert Belongs(s, p.id, s.db.tokens[p.id]);
    }
  }

  lemma NextIsOk(s: State, id: string, after: After, ids: seq<string>, succeeded: bool)
    ensures PhaseOk(s, NextOf(ids)) && Held(NextOf(ids)) == None
    ensures PhaseOk(s, AfterUnlock(id, after, succeeded)) && Held(AfterUnlock(id, after, succeeded)) == None
  {
  }

  lemma OtherPhases(s: State, t: TaskId, p: Phase, c: Choice)
    requires Custody(s) && t in s.tasks && s.tasks[t] == p && LeavesRecords(p) && CanAct(s, p, c)
    ensures PhaseOk(s, Take(s, t, p, c).tasks[t])
    ensures Held(Take(s, t, p, c).tasks[t]) == Held(p)
  {
    assert PhaseOk(s, p);
    if p.GetRead? {
      GetReads(s, t, p, c);
    } else if p.GetReadBack? {
      GetReadsBack(s, t, p, c);
    } else if p.RefreshRead? {
      RefreshReads(s, t, p, c);
    } else if p.Unlock? {
      NextIsOk(s, p.id, p.after, [], p.succeeded);
    } else if p.ListActive? || p.ListStale? {
      NextIsOk(s, "", Return, c.ids, true);
    } else {
      RestOfPhases(s, t, p, c);
    }
  }

  lemma RestOfPhases(s: State, t: TaskId, p: Phase, c: Choice)
    requires PhaseOk(s, p) && LeavesRecords(p) && CanAct(s, p, c)
    requires !p.GetRead? && !p.GetReadBack? && !p.RefreshRead? && !p.Unlock? && !p.ListActive? && !p.ListStale?
    ensures PhaseOk(s, Take(s, t, p, c).tasks[t])
    ensures Held(Take(s, t, p, c).tasks[t]) == Held(p)
  {
  }

  lemma OtherStepsKeepCustody(s: State, t: TaskId, p: Phase, c: Choice)
    requires Custody(s) && t in s.tasks && s.tasks[t] == p && LeavesRecords(p) && CanAct(s, p, c)
    ensures Custody(Take(s, t, p, c)) && Grows(s, Take(s, t, p, c))
  {
    var s' := Take(s, t, p, c);
    OnlyItsTaskMoves(s, t, p, c);
    OtherTables(s, t, p, c);
    OtherRecords(s, t, p, c);
    OtherPhases(s, t, p, c);
    PhaseStaysOk(s, s', s'.tasks[t]);
    TasksStayOk(s, s', t, s'.tasks[t]);
  }

  lemma TakeKeepsCustody(s: State, t: TaskId, p: Phase, c: Choice)
    requires Custody(s) && t in s.tasks && s.tasks[t] == p && CanAct(s, p, c)
    ensures Custody(Take(s, t, p, c)) && Grows(s, Take(s, t, p, c))
  {
    if p.Exchange? {
      ExchangeKeepsCustody(s, t, p, c);
    } else if p.CodeExchange? {
      CodeExchangeKeepsCustody(s, t, p, c);
    } else if p.Resolve? {
      ResolveKeepsCustody(s, t, p, c);
    } else if p.Lookup? {
      LookupKeepsCustody(s, t, p, c);
    } else if p.CreateRow? {
      CreateKeepsCustody(s, t, p, c);
    } else if p.ConsentWrite? {
      ConsentWriteKeepsCustody(s, t, p, c);
    } else {
      OtherStepsKeepCustody(s, t, p, c);
    }
  }

  lemma BeginKeepsCustody(s: State, t: TaskId, p: Phase)
    requires Custody(s) && t !in s.tasks && IsCall(p)
    ensures Custody(Goto(s, t, p)) && Grows(s, Goto(s, t, p))
  {
    TasksStayOk(s, Goto(s, t, p), t, p);
  }

  lemma StepKeepsCustody(s: State, e: Event)
    requires Custody(s) && Enabled(s, e)
    ensures Custody(Apply(s, e)) && Grows(s, Apply(s, e))
  {
    match e
    case Begin(task, phase) => BeginKeepsCustody(s, task, phase);
    case Wait(_) => TasksUntouched(s, Apply(s, e));
    case Act(task, choice) => TakeKeepsCustody(s, task, s.tasks[task], choice);
  }

  lemma TasksUntouched(s: State, s': State)
    requires TasksOk(s) && s'.tasks == s.tasks && s'.history == s.history && s'.provider == s.provider
    ensures TasksOk(s')
  {
    forall u | u in s'.tasks ensures PhaseOk(s', s'.tasks[u]) {
      PhaseStaysOk(s, s', s.tasks[u]);
    }
  }

  // ---- Results over whole runs ------------------------------------------------------

  /** In every run from an empty database, custody holds and no record is ever altered. */
  lemma {:induction false} RunKeepsCustody(s: State, es: seq<Event>)
    requires Custody(s) && IsRun(s, es)
    ensures Custody(Run(s, es)) && Grows(s, Run(s, es))
  {
    if es != [] {
      RunKeepsCustody(s, es[..|es| - 1]);
      StepKeepsCustody(Run(s, es[..|es| - 1]), es[|es| - 1]);
    }
  }

  /**
   * No schedule puts one account's token under another: what is stored for an account was
   * issued to an identity with its email, up to ASCII case, and no two accounts share a token.
   */
  lemma StoredTokensAreTheirAccounts(es: seq<Event>, id: string)
    requires IsRun(INIT, es) && id in Run(INIT, es).db.tokens
    ensures var s := Run(INIT, es);
            && id in s.db.accounts && IssuedTo(s, id, s.db.tokens[id].access, s.db.tokens[id].refresh)
            && s.history.identity[id] == Who(s.db.accounts[id].tenant, s.db.accounts[id].email)
            && SameUpToCase(s.provider.accessOf[s.db.tokens[id].access], s.db.accounts[id].email)
            && SameUpToCase(s.provider.refreshOf[s.db.tokens[id].refresh], s.db.accounts[id].email)
            && (forall other | other in s.db.tokens && other != id ::
                  s.db.tokens[other].refresh != s.db.tokens[id].refresh)
  {
    RunKeepsCustody(INIT, es);
    var s := Run(INIT, es);
    assert Belongs(s, id, s.db.tokens[id]) && ForAccount(s, s.db.accounts[id]);
    LowerFoldsCaseOnly(s.provider.accessOf[s.db.tokens[id].access], s.db.accounts[id].email);
    LowerFoldsCaseOnly(s.provider.refreshOf[s.db.tokens[id].refresh], s.db.accounts[id].email);
  }

  /** Nor does `get_access_token` ever hand a caller another account's access token. */
  lemma ReturnedTokensAreTheirAccounts(es: seq<Event>, t: TaskId)
    requires IsRun(INIT, es) && t in Run(INIT, es).tasks && Run(INIT, es).tasks[t].Got?
    ensures var s := Run(INIT, es);
            && s.tasks[t].id in s.history.identity && s.tasks[t].access in s.provider.accessOf
            && SameUpToCase(s.provider.accessOf[s.tasks[t].access], s.history.identity[s.tasks[t].id].email)
            && (s.tasks[t].id in s.db.accounts ==>
                  SameUpToCase(s.provider.accessOf[s.tasks[t].access], s.db.accounts[s.tasks[t].id].email))
  {
    RunKeepsCustody(INIT, es);
    GotIsTheAccounts(Run(INIT, es), t, Run(INIT, es).tasks[t]);
  }

  lemma GotIsTheAccounts(s: State, t: TaskId, p: Phase)
    requires Custody(s) && t in s.tasks && s.tasks[t] == p && p.Got?
    ensures p.id in s.history.identity && p.access in s.provider.accessOf
    ensures SameUpToCase(s.provider.accessOf[p.access], s.history.identity[p.id].email)
    ensures p.id in s.db.accounts ==> s.history.identity[p.id].email == s.db.accounts[p.id].email
  {
    assert PhaseOk(s, p);
    assert p.id in s.db.accounts ==> ForAccount(s, s.db.accounts[p.id]);
    LowerFoldsCaseOnly(s.provider.accessOf[p.access], s.history.identity[p.id].email);
  }

  /** Referential integrity and exact uniqueness survive every interleaving. */
  lemma SchemaHoldsInEveryRun(es: seq<Event>)
    requires IsRun(INIT, es)
    ensures Consistent(Run(INIT, es).db)
  {
    RunKeepsCustody(INIT, es);
  }

  /** An account keeps its tenant and email, even removed and re-created under its id in between. */
  lemma IdentityNeverChanges(es: seq<Event>, k: nat, id: string)
    requires k <= |es| && IsRun(INIT, es) && IsRun(INIT, es[..k])
    requires id in Run(INIT, es[..k]).db.accounts && id in Run(INIT, es).db.accounts
    ensures var a, b := Run(INIT, es[..k]).db.accounts[id], Run(INIT, es).db.accounts[id];
            a.tenant == b.tenant && a.email == b.email
  {
    RunKeepsCustody(INIT, es);
    RunKeepsCustody(INIT, es[..k]);
    RunSplits(INIT, es, k);
    RunKeepsCustody(Run(INIT, es[..k]), es[k..]);
  }
}
