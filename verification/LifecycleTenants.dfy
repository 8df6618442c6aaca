/**
 * Tenant isolation over whole interleaved runs (`README.md:226-239`,
 * `src/storage/accounts.rs:78-146`, `src/auth/token.rs:105-142`, `193-233`): delete everything
 * tenant `a` ever asked for from a run, and all that the background batches did for its
 * accounts, and nobody else can tell.
 */
module LifecycleTenants {
  import opened Prelude
  import opened Tables
  import opened TokenRules
  import opened Lifecycle
  import opened LifecycleLocks
  import opened LifecycleCustody
  import opened LifecycleDisconnect

  /** Which tenant each task works for; a batch works for none in particular. */
  type Owner = TaskId -> Option<string>

  predicate HasTenant(s: State, id: string, tenant: string) {
    id in s.history.identity && s.history.identity[id].tenant == tenant
  }

  /** The task works on behalf of `tenant`: only its accounts, found through it. */
  predicate WorksFor(s: State, p: Phase, tenant: string) {
    match p
    case GetRead(id) => HasTenant(s, id, tenant)
    case BumpWrite(id, _) => HasTenant(s, id, tenant)
    case GetReadBack(id) => HasTenant(s, id, tenant)
    case LockEntry(id, after) => HasTenant(s, id, tenant) && !after.Next?
    case LockWait(id, after) => HasTenant(s, id, tenant) && !after.Next?
    case RefreshRead(id, after) => HasTenant(s, id, tenant) && !after.Next?
    case Exchange(id, after, _) => HasTenant(s, id, tenant) && !after.Next?
    case RefreshWrite(id, after, _, _) => HasTenant(s, id, tenant) && !after.Next?
    case Unlock(id, after, _) => HasTenant(s, id, tenant) && !after.Next?
    case ListActive => false
    case ListStale(_) => false
    case CodeExchange(t) => t == tenant
    case Resolve(t, _, _) => t == tenant
    case Lookup(t, _, _, _, _) => t == tenant
    case CheckRow(account, _) => HasTenant(s, account.id, tenant) && account.tenant == tenant
    case CreateRow(account, _) => HasTenant(s, account.id, tenant) && account.tenant == tenant
    case ConsentWrite(account, _) => HasTenant(s, account.id, tenant) && account.tenant == tenant
    case DisconnectGet(t, _) => t == tenant
    case DropToken(t, id) => t == tenant && HasTenant(s, id, tenant)
    case MarkDisconnected(t, id) => t == tenant && HasTenant(s, id, tenant)
    case RemoveGet(t, _) => t == tenant
    case RemoveByEmail(t, _) => t == tenant
    case RemoveRow(t, id) => t == tenant && HasTenant(s, id, tenant)
    case Finished => true
    case Failed => true
    case Got(id, _) => HasTenant(s, id, tenant)
  }

  predicate Known(s: State, ids: seq<string>) {
    forall id | id in ids :: id in s.history.identity
  }

  /** `refresh_all` or `refresh_stale`, anywhere between its listing and its end. */
  predicate IsBatch(s: State, p: Phase) {
    || p.ListActive? || p.ListStale? || p.Finished?
    || (Refreshing(p) && p.after.Next? && p.id in s.history.identity && Known(s, p.after.rest))
  }

  predicate Works(s: State, p: Phase, who: Option<string>) {
    match who
    case Some(tenant) => WorksFor(s, p, tenant)
    case None => IsBatch(s, p)
  }

  /** Callers start tasks only for accounts of their own tenant; batches are anybody's. */
  predicate Attributed(s: State, es: seq<Event>, owner: Owner)
    requires IsRun(s, es)
  {
    es == [] ||
    (var e := es[|es| - 1];
     && Attributed(s, es[..|es| - 1], owner)
     && (e.Begin? ==> Works(Run(s, es[..|es| - 1]), e.phase, owner(e.task))))
  }

  predicate Tenanted(s: State, owner: Owner) {
    forall t | t in s.tasks :: Works(s, s.tasks[t], owner(t))
  }

  // ---- The run without a tenant -----------------------------------------------------

  /** The accounts that are not tenant `a`'s, in their order. */
  function Others(s: State, ids: seq<string>, a: string): seq<string> {
    if ids == [] then []
    else (if HasTenant(s, ids[0], a) then [] else [ids[0]]) + Others(s, ids[1..], a)
  }

  predicate Lists(p: Phase) {
    p.ListActive? || p.ListStale?
  }

  /** A batch at one of tenant `a`'s accounts. */
  predicate AtOwn(s: State, p: Phase, a: string) {
    Refreshing(p) && HasTenant(s, p.id, a)
  }

  /** What is left of a step without tenant `a`: a batch lists the other accounts, and skips `a`'s. */
  function PurgeEvent(s: State, e: Event, owner: Owner, a: string): Option<Event> {
    if e.Wait? then Some(e)
    else if owner(e.task) == Some(a) then None
    else if e.Begin? || owner(e.task).Some? || e.task !in s.tasks then Some(e)
    else if Lists(s.tasks[e.task]) && e.choice.Order? then Some(Act(e.task, Order(Others(s, e.choice.ids, a))))
    else if AtOwn(s, s.tasks[e.task], a) then None
    else Some(e)
  }

  /** The run without what tenant `a` asked for and what batches did for it. */
  function Purge(es: seq<Event>, owner: Owner, a: string): seq<Event>
    requires IsRun(INIT, es)
  {
    if es == [] then []
    else
      var front := es[..|es| - 1];
      match PurgeEvent(Run(INIT, front), es[|es| - 1], owner, a)
      case None => Purge(front, owner, a)
      case Some(e) => Purge(front, owner, a) + [e]
  }

  // ---- The relation -----------------------------------------------------------------

  predicate SameAt<K, V(==)>(m: map<K, V>, m': map<K, V>, k: K) {
    (k in m <==> k in m') && (k in m ==> m[k] == m'[k])
  }

  /** Everything filed under this account id is the same. */
  predicate SameAccount(s: State, s': State, id: string) {
    && SameAt(s.db.accounts, s'.db.accounts, id) && SameAt(s.db.tokens, s'.db.tokens, id)
    && SameAt(s.locks, s'.locks, id) && SameAt(s.history.identity, s'.history.identity, id)
  }

  /** The same place in a refresh for another caller. */
  function With(p: Phase, after: After): (q: Phase)
    requires Refreshing(p)
    ensures Refreshing(q) && q.id == p.id && q.after == after
  {
    p.(after := after)
  }

  /** Where a task of the full run stands in the purged one: a batch has skipped tenant `a`'s accounts. */
  function Skipping(s: State, p: Phase, who: Option<string>, a: string): Phase {
    if who.Some? || !Refreshing(p) || !p.after.Next? then p
    else if AtOwn(s, p, a) then NextOf(Others(s, p.after.rest, a))
    else With(p, Next(Others(s, p.after.rest, a)))
  }

  predicate SameTask(s: State, s': State, owner: Owner, a: string, t: TaskId) {
    && (t in s.tasks <==> t in s'.tasks)
    && (t in s.tasks ==> s'.tasks[t] == Skipping(s, s.tasks[t], owner(t), a))
  }

  /** The tables and records differ only in what belongs to tenant `a`, and the purged ones have nothing of it. */
  ghost predicate SameRecords(s: State, s': State, a: string) {
    && s.now == s'.now
    && (forall id :: !HasTenant(s, id, a) ==> SameAccount(s, s', id))
    && (forall id :: !HasTenant(s', id, a))
    && Nested(s, s')
  }

  /** The two states differ only in what belongs to tenant `a`. */
  ghost predicate Agree(s: State, s': State, owner: Owner, a: string) {
    && SameRecords(s, s', a)
    && (forall t | owner(t) != Some(a) :: SameTask(s, s', owner, a, t))
  }

  /** What is recorded in the purged state is recorded in the full one. */
  predicate Nested(s: State, s': State) {
    && Extends(s'.provider.accessOf, s.provider.accessOf) && Extends(s'.provider.refreshOf, s.provider.refreshOf)
    && Extends(s'.history.identity, s.history.identity)
  }

  // ---- Reads ------------------------------------------------------------------------

  lemma SameOwns(s: State, s': State, a: string, tenant: string, id: string)
    requires SameRecords(s, s', a) && Custody(s) && Custody(s') && tenant != a
    ensures Owns(s.db, tenant, id) == Owns(s'.db, tenant, id)
    ensures Owns(s.db, tenant, id) ==> HasTenant(s, id, tenant) && SameAccount(s, s', id)
  {
    if !HasTenant(s, id, a) {
      assert SameAccount(s, s', id);
    }
  }

  lemma SameMatches(s: State, s': State, a: string, tenant: string, email: string)
    requires SameRecords(s, s', a) && Custody(s) && Custody(s') && tenant != a
    ensures Matches(s.db, tenant, email) == Matches(s'.db, tenant, email)
    ensures forall id | id in Matches(s.db, tenant, email) :: HasTenant(s, id, tenant) && SameAccount(s, s', id)
  {
    forall id | id in Matches(s.db, tenant, email) || id in Matches(s'.db, tenant, email)
      ensures id in Matches(s.db, tenant, email) && id in Matches(s'.db, tenant, email)
      ensures HasTenant(s, id, tenant) && SameAccount(s, s', id)
    {
      SameOwns(s, s', a, tenant, id);
    }
  }

  lemma SameCanCreate(s: State, s': State, a: string, account: Account)
    requires SameRecords(s, s', a) && Custody(s) && Custody(s') && account.tenant != a
    requires HasTenant(s, account.id, account.tenant)
    ensures CanCreate(s.db, account) == CanCreate(s'.db, account)
  {
    assert SameAccount(s, s', account.id);
    forall id | id in s.db.accounts && Clashes(s.db.accounts[id], account)
      ensures id in s'.db.accounts && Clashes(s'.db.accounts[id], account)
    {
      SameOwns(s, s', a, account.tenant, id);
    }
    forall id | id in s'.db.accounts && Clashes(s'.db.accounts[id], account)
      ensures id in s.db.accounts && Clashes(s.db.accounts[id], account)
    {
      SameOwns(s, s', a, account.tenant, id);
    }
  }

  // ---- Steps of the purged tenant ---------------------------------------------------

  /** Steps touch tables, locks and identities only at the ids of their tenant. */
  lemma OnlyOwnAccountRows(s: State, t: TaskId, p: Phase, c: Choice, tenant: string, id: string)
    requires WorksFor(s, p, tenant) && CanAct(s, p, c) && !HasTenant(s, id, tenant)
    ensures SameAt(s.db.accounts, Take(s, t, p, c).db.accounts, id)
  {
    if WritesAccounts(p) {
      OwnRowsWritten(s, t, p, c, tenant, id);
    } else {
      WritersOnly(s, t, p, c);
    }
  }

  lemma OwnRowsWritten(s: State, t: TaskId, p: Phase, c: Choice, tenant: string, id: string)
    requires WritesAccounts(p) && WorksFor(s, p, tenant) && CanAct(s, p, c) && !HasTenant(s, id, tenant)
    ensures SameAt(s.db.accounts, Take(s, t, p, c).db.accounts, id)
  {
  }

  lemma OnlyOwnTokens(s: State, t: TaskId, p: Phase, c: Choice, tenant: string, id: string)
    requires WorksFor(s, p, tenant) && CanAct(s, p, c) && !HasTenant(s, id, tenant)
    ensures SameAt(s.db.tokens, Take(s, t, p, c).db.tokens, id)
  {
    if WritesTokens(p) {
      OwnTokensWritten(s, t, p, c, tenant, id);
    } else {
      WritersOnly(s, t, p, c);
    }
  }

  lemma OwnTokensWritten(s: State, t: TaskId, p: Phase, c: Choice, tenant: string, id: string)
    requires WritesTokens(p) && WorksFor(s, p, tenant) && CanAct(s, p, c) && !HasTenant(s, id, tenant)
    ensures SameAt(s.db.tokens, Take(s, t, p, c).db.tokens, id)
  {
  }

  lemma OnlyOwnLocks(s: State, t: TaskId, p: Phase, c: Choice, tenant: string, id: string)
    requires WorksFor(s, p, tenant) && CanAct(s, p, c) && !HasTenant(s, id, tenant)
    ensures SameAt(s.locks, Take(s, t, p, c).locks, id)
  {
    if LockStep(p) {
      OwnLocksTaken(s, t, p, c, tenant, id);
    } else {
      LockersOnly(s, t, p, c);
    }
  }

  lemma OwnLocksTaken(s: State, t: TaskId, p: Phase, c: Choice, tenant: string, id: string)
    requires LockStep(p) && WorksFor(s, p, tenant) && CanAct(s, p, c) && !HasTenant(s, id, tenant)
    ensures SameAt(s.locks, Take(s, t, p, c).locks, id)
  {
  }

  lemma OnlyOwnIdentities(s: State, t: TaskId, p: Phase, c: Choice, tenant: string, id: string)
    requires WorksFor(s, p, tenant) && CanAct(s, p, c) && !HasTenant(Take(s, t, p, c), id, tenant)
    ensures SameAt(s.history.identity, Take(s, t, p, c).history.identity, id)
    ensures !HasTenant(s, id, tenant)
  {
    if p.Lookup? {
      OwnIdentityMade(s, t, p, c, tenant, id);
    } else {
      IssuersOnly(s, t, p, c);
    }
  }

  lemma OwnIdentityMade(s: State, t: TaskId, p: Phase, c: Choice, tenant: string, id: string)
    requires p.Lookup? && WorksFor(s, p, tenant) && CanAct(s, p, c) && !HasTenant(Take(s, t, p, c), id, tenant)
    ensures SameAt(s.history.identity, Take(s, t, p, c).history.identity, id)
    ensures !HasTenant(s, id, tenant)
  {
  }

  lemma OnlyOwnAccounts(s: State, t: TaskId, p: Phase, c: Choice, tenant: string, id: string)
    requires WorksFor(s, p, tenant) && CanAct(s, p, c) && !HasTenant(Take(s, t, p, c), id, tenant)
    ensures SameAccount(s, Take(s, t, p, c), id)
  {
    OnlyOwnIdentities(s, t, p, c, tenant, id);
    OnlyOwnAccountRows(s, t, p, c, tenant, id);
    OnlyOwnTokens(s, t, p, c, tenant, id);
    OnlyOwnLocks(s, t, p, c, tenant, id);
  }

  // ---- Batches ----------------------------------------------------------------------

  /** A refresh does the same whatever its caller does next. */
  lemma AfterIsCarried(s: State, t: TaskId, p: Phase, c: Choice, after: After)
    requires Refreshing(p) && CanAct(s, p, c)
    ensures CanAct(s, With(p, after), c)
    ensures var r, r' := Take(s, t, p, c), Take(s, t, With(p, after), c);
            && r'.db == r.db && r'.locks == r.locks && r'.provider == r.provider
            && r'.history == r.history && r'.now == r.now
            && (p.Unlock? ==> r.tasks[t] == AfterUnlock(p.id, p.after, p.succeeded)
                              && r'.tasks[t] == AfterUnlock(p.id, after, p.succeeded))
            && (!p.Unlock? ==> Refreshing(r.tasks[t]) && r.tasks[t].id == p.id && r.tasks[t].after == p.after
                               && r'.tasks[t] == With(r.tasks[t], after))
  {
  }

  lemma {:induction false} OthersMembers(s: State, ids: seq<string>, a: string)
    ensures forall id :: id in Others(s, ids, a) <==> id in ids && !HasTenant(s, id, a)
  {
    if ids != [] {
      OthersMembers(s, ids[1..], a);
    }
  }

  lemma {:induction false} OthersDistinct(s: State, ids: seq<string>, a: string)
    requires forall i, j | 0 <= i < j < |ids| :: ids[i] != ids[j]
    ensures forall i, j | 0 <= i < j < |Others(s, ids, a)| :: Others(s, ids, a)[i] != Others(s, ids, a)[j]
  {
    if ids != [] {
      var rest := Others(s, ids[1..], a);
      OthersDistinct(s, ids[1..], a);
      OthersMembers(s, ids[1..], a);
      assert ids[0] !in ids[1..];
      assert forall i | 0 <= i < |rest| :: rest[i] in rest && rest[i] != ids[0];
      var os := Others(s, ids, a);
      assert os == if HasTenant(s, ids[0], a) then rest else [ids[0]] + rest;
      forall i, j | 0 <= i < j < |os| ensures os[i] != os[j] {
        if HasTenant(s, ids[0], a) {
          assert rest[i] != rest[j];
        } else if i == 0 {
          assert os[j] == rest[j - 1] && rest[j - 1] != ids[0];
        } else {
          assert rest[i - 1] != rest[j - 1];
        }
      }
    }
  }

  lemma OthersInOrder(s: State, ids: seq<string>, all: set<string>, others: set<string>, a: string)
    requires IsOrderOf(ids, all) && forall id :: id in others <==> id in all && !HasTenant(s, id, a)
    ensures IsOrderOf(Others(s, ids, a), others)
  {
    OthersMembers(s, ids, a);
    OthersDistinct(s, ids, a);
  }

  /** Records only grow, so what a batch skips stays the same. */
  lemma {:induction false} OthersStay(s: State, s': State, ids: seq<string>, a: string)
    requires Known(s, ids) && Extends(s.history.identity, s'.history.identity)
    ensures Others(s', ids, a) == Others(s, ids, a) && Known(s', ids)
  {
    if ids != [] {
      assert ids[0] in ids;
      assert forall id | id in ids[1..] :: id in ids;
      OthersStay(s, s', ids[1..], a);
    }
  }

  lemma SkippingStays(s: State, s': State, p: Phase, who: Option<string>, a: string)
    requires Works(s, p, who) && Extends(s.history.identity, s'.history.identity)
    ensures Skipping(s', p, who, a) == Skipping(s, p, who, a)
  {
    if who.None? && Refreshing(p) {
      OthersStay(s, s', p.after.rest, a);
    }
  }

  /** Going on to the next account, the purged batch goes on to the next of the others. */
  lemma NextSkips(s: State, ids: seq<string>, a: string)
    ensures Skipping(s, NextOf(ids), None, a) == NextOf(Others(s, ids, a))
  {
    if ids != [] {
      var first, rest := LockEntry(ids[0], Next(ids[1..])), Others(s, ids[1..], a);
      assert NextOf(ids) == first && AtOwn(s, first, a) == HasTenant(s, ids[0], a);
      if HasTenant(s, ids[0], a) {
        assert Others(s, ids, a) == rest;
      } else {
        assert Others(s, ids, a) == [ids[0]] + rest;
        assert NextOf([ids[0]] + rest) == LockEntry(ids[0], Next(rest));
      }
    }
  }

  /** A step of a batch at one of `a`'s accounts leaves the purged batch where it is. */
  lemma OwnStepIsSkipped(s: State, t: TaskId, p: Phase, c: Choice, a: string)
    requires IsBatch(s, p) && AtOwn(s, p, a) && CanAct(s, p, c) && t in s.tasks && s.tasks[t] == p
    ensures Skipping(s, Take(s, t, p, c).tasks[t], None, a) == Skipping(s, p, None, a)
  {
    AfterIsCarried(s, t, p, c, Return);
    if p.Unlock? {
      NextSkips(s, p.after.rest, a);
    }
  }

  // ---- Steps that vanish ------------------------------------------------------------

  lemma OwnStepStaysSkipped(s: State, t: TaskId, p: Phase, c: Choice, a: string)
    requires IsBatch(s, p) && AtOwn(s, p, a) && CanAct(s, p, c) && t in s.tasks && s.tasks[t] == p
    ensures Skipping(Take(s, t, p, c), Take(s, t, p, c).tasks[t], None, a) == Skipping(s, p, None, a)
  {
    OwnStepIsSkipped(s, t, p, c, a);
    IssuersOnly(s, t, p, c);
    SkippingSame(s, Take(s, t, p, c), Take(s, t, p, c).tasks[t], None, a);
  }

  lemma InvisibleRecords(s: State, s': State, a: string, t: TaskId, p: Phase, c: Choice)
    requires SameRecords(s, s', a) && Custody(s) && t in s.tasks && s.tasks[t] == p && CanAct(s, p, c)
    requires WorksFor(s, p, a) || AtOwn(s, p, a)
    ensures SameRecords(Take(s, t, p, c), s', a)
  {
    var s2 := Take(s, t, p, c);
    TakeKeepsCustody(s, t, p, c);
    OnlyItsTaskMoves(s, t, p, c);
    forall id | !HasTenant(s2, id, a) ensures SameAccount(s2, s', id) {
      if AtOwn(s, p, a) {
        AfterIsCarried(s, t, p, c, Return);
        OnlyOwnAccounts(s, t, With(p, Return), c, a, id);
      } else {
        OnlyOwnAccounts(s, t, p, c, a, id);
      }
      assert SameAccount(s, s', id);
    }
  }

  /** A step of the purged tenant, or of a batch on its behalf, is invisible to the others. */
  lemma VanishedStepIsInvisible(s: State, s': State, owner: Owner, a: string, t: TaskId, c: Choice)
    requires Agree(s, s', owner, a) && Custody(s) && Tenanted(s, owner) && Enabled(s, Act(t, c))
    requires PurgeEvent(s, Act(t, c), owner, a).None?
    ensures Agree(Apply(s, Act(t, c)), s', owner, a)
  {
    var p, s2 := s.tasks[t], Apply(s, Act(t, c));
    assert Works(s, p, owner(t));
    InvisibleRecords(s, s', a, t, p, c);
    TakeKeepsCustody(s, t, p, c);
    OnlyItsTaskMoves(s, t, p, c);
    if owner(t) != Some(a) {
      OwnStepStaysSkipped(s, t, p, c, a);
    }
    OthersAgree(s, s', s2, owner, a, t);
  }

  lemma OthersAgree(s: State, s': State, r: State, owner: Owner, a: string, t: TaskId)
    requires Agree(s, s', owner, a) && Tenanted(s, owner) && Extends(s.history.identity, r.history.identity)
    requires t in s.tasks && t in r.tasks && r.tasks == s.tasks[t := r.tasks[t]]
    requires owner(t) != Some(a) ==> Skipping(r, r.tasks[t], owner(t), a) == Skipping(s, s.tasks[t], owner(t), a)
    ensures forall u | owner(u) != Some(a) :: SameTask(r, s', owner, a, u)
  {
    forall u | owner(u) != Some(a) ensures SameTask(r, s', owner, a, u) {
      assert SameTask(s, s', owner, a, u);
      if u != t && u in s.tasks {
        assert Works(s, s.tasks[u], owner(u));
        SkippingStays(s, r, s.tasks[u], owner(u), a);
      }
    }
  }

  lemma {:induction false} SameOthers(s: State, s': State, ids: seq<string>, a: string)
    requires s.history.identity == s'.history.identity
    ensures Others(s', ids, a) == Others(s, ids, a)
  {
    if ids != [] {
      SameOthers(s, s', ids[1..], a);
    }
  }

  lemma SkippingSame(s: State, s': State, p: Phase, who: Option<string>, a: string)
    requires s.history.identity == s'.history.identity
    ensures Skipping(s', p, who, a) == Skipping(s, p, who, a)
  {
    if who.None? && Refreshing(p) && p.after.Next? {
      SameOthers(s, s', p.after.rest, a);
    }
  }

  lemma VanishedBeginIsInvisible(s: State, s': State, owner: Owner, a: string, t: TaskId, p: Phase)
    requires Agree(s, s', owner, a) && owner(t) == Some(a) && t !in s.tasks
    ensures Agree(Goto(s, t, p), s', owner, a)
  {
    var s2 := Goto(s, t, p);
    forall id | !HasTenant(s2, id, a) ensures SameAccount(s2, s', id) {
      assert SameAccount(s, s', id);
    }
    forall u | owner(u) != Some(a) ensures SameTask(s2, s', owner, a, u) {
      assert SameTask(s, s', owner, a, u);
      if u in s.tasks {
        SkippingSame(s, s2, s.tasks[u], owner(u), a);
      }
    }
  }

  // ---- Steps of the others ----------------------------------------------------------

  /** What the step of another tenant's task reads is the same in both states. */
  lemma SameEnabled(s: State, s': State, a: string, p: Phase, c: Choice, tenant: string)
    requires SameRecords(s, s', a) && Custody(s) && Custody(s') && tenant != a && WorksFor(s, p, tenant)
    requires PhaseOk(s', p) && CanAct(s, p, c)
    ensures CanAct(s', p, c)
  {
    match p
    case Lookup(t, email, _, _, _) => SameMatches(s, s', a, t, email);
    case RemoveByEmail(t, email) => SameMatches(s, s', a, t, email);
    case LockWait(id, _) => assert SameAccount(s, s', id);
    case _ =>
  }

  /** The account a phase is about, if it is about one. */
  function Subject(p: Phase): Option<string> {
    match p
    case GetRead(id) => Some(id)
    case BumpWrite(id, _) => Some(id)
    case GetReadBack(id) => Some(id)
    case LockEntry(id, _) => Some(id)
    case LockWait(id, _) => Some(id)
    case RefreshRead(id, _) => Some(id)
    case Exchange(id, _, _) => Some(id)
    case RefreshWrite(id, _, _, _) => Some(id)
    case Unlock(id, _, _) => Some(id)
    case CheckRow(account, _) => Some(account.id)
    case CreateRow(account, _) => Some(account.id)
    case ConsentWrite(account, _) => Some(account.id)
    case DropToken(_, id) => Some(id)
    case MarkDisconnected(_, id) => Some(id)
    case RemoveRow(_, id) => Some(id)
    case _ => None
  }

  /** The reads of a step about one account, in both states. */
  predicate SameReads(s: State, s': State, p: Phase, c: Choice) {
    && s.now == s'.now
    && (Subject(p).Some? ==> SameAccount(s, s', Subject(p).value))
    && (p.CreateRow? ==> CanCreate(s.db, p.account) == CanCreate(s'.db, p.account))
    && (p.DisconnectGet? ==> Owns(s.db, p.tenant, p.id) == Owns(s'.db, p.tenant, p.id))
    && (p.RemoveGet? ==> Owns(s.db, p.tenant, p.key) == Owns(s'.db, p.tenant, p.key))
    && (p.RemoveByEmail? ==> Matches(s.db, p.tenant, p.email) == Matches(s'.db, p.tenant, p.email))
    && (p.Resolve? ==> p.grant.access in s.provider.accessOf && p.grant.access in s'.provider.accessOf
                       && s.provider.accessOf[p.grant.access] == s'.provider.accessOf[p.grant.access])
    && (p.Lookup? ==> c.Row? && Matches(s.db, p.tenant, p.email) == Matches(s'.db, p.tenant, p.email)
                      && SameAt(s.db.accounts, s'.db.accounts, c.id))
    && !p.ListActive? && !p.ListStale?
  }

  lemma LookupReadsTheSame(s: State, s': State, a: string, p: Phase, c: Choice, tenant: string)
    requires p.Lookup?
    requires SameRecords(s, s', a) && Custody(s) && Custody(s') && tenant != a && WorksFor(s, p, tenant)
    requires PhaseOk(s', p) && CanAct(s, p, c) && CanAct(s', p, c)
    ensures SameReads(s, s', p, c)
  {
    SameMatches(s, s', a, p.tenant, p.email);
    assert c.id !in s.history.identity ==> SameAccount(s, s', c.id);
  }

  lemma SubjectReadsTheSame(s: State, s': State, a: string, p: Phase, c: Choice, tenant: string)
    requires Subject(p).Some?
    requires SameRecords(s, s', a) && Custody(s) && Custody(s') && tenant != a && WorksFor(s, p, tenant)
    requires PhaseOk(s', p) && CanAct(s, p, c) && CanAct(s', p, c)
    ensures SameReads(s, s', p, c)
  {
    assert HasTenant(s, Subject(p).value, tenant);
    assert SameAccount(s, s', Subject(p).value);
    if p.CreateRow? {
      SameCanCreate(s, s', a, p.account);
    }
  }

  lemma OthersReadTheSame(s: State, s': State, a: string, p: Phase, c: Choice, tenant: string)
    requires SameRecords(s, s', a) && Custody(s) && Custody(s') && tenant != a && WorksFor(s, p, tenant)
    requires PhaseOk(s', p) && CanAct(s, p, c) && CanAct(s', p, c)
    ensures SameReads(s, s', p, c)
  {
    if Subject(p).Some? {
      SubjectReadsTheSame(s, s', a, p, c, tenant);
    } else if p.Lookup? {
      LookupReadsTheSame(s, s', a, p, c, tenant);
    } else {
      match p
      case DisconnectGet(t, id) => SameOwns(s, s', a, t, id);
      case RemoveGet(t, key) => SameOwns(s, s', a, t, key);
      case RemoveByEmail(t, email) => SameMatches(s, s', a, t, email);
      case _ =>
    }
  }

  lemma SamePhaseOfRefresh(s: State, s': State, t: TaskId, p: Phase, c: Choice)
    requires Refreshing(p) && CanAct(s, p, c) && CanAct(s', p, c) && SameReads(s, s', p, c)
    ensures t in Take(s, t, p, c).tasks && t in Take(s', t, p, c).tasks
    ensures Take(s, t, p, c).tasks[t] == Take(s', t, p, c).tasks[t]
  {
  }

  lemma SamePhaseElsewhere(s: State, s': State, t: TaskId, p: Phase, c: Choice)
    requires !Refreshing(p)
    requires CanAct(s, p, c) && CanAct(s', p, c) && SameReads(s, s', p, c)
    requires t in s.tasks && t in s'.tasks && s.tasks[t] == p && s'.tasks[t] == p
    ensures t in Take(s, t, p, c).tasks && t in Take(s', t, p, c).tasks
    ensures Take(s, t, p, c).tasks[t] == Take(s', t, p, c).tasks[t]
  {
    if InConsent(p) {
      SamePhaseOfConsent(s, s', t, p, c);
    }
  }

  lemma SamePhaseOfConsent(s: State, s': State, t: TaskId, p: Phase, c: Choice)
    requires InConsent(p)
    requires CanAct(s, p, c) && CanAct(s', p, c) && SameReads(s, s', p, c)
    requires t in s.tasks && t in s'.tasks && s.tasks[t] == p && s'.tasks[t] == p
    ensures t in Take(s, t, p, c).tasks && t in Take(s', t, p, c).tasks
    ensures Take(s, t, p, c).tasks[t] == Take(s', t, p, c).tasks[t]
  {
  }

  /** Equal reads, equal next position. */
  lemma SamePhase(s: State, s': State, t: TaskId, p: Phase, c: Choice)
    requires CanAct(s, p, c) && CanAct(s', p, c) && SameReads(s, s', p, c)
    requires t in s.tasks && t in s'.tasks && s.tasks[t] == p && s'.tasks[t] == p
    ensures t in Take(s, t, p, c).tasks && t in Take(s', t, p, c).tasks
    ensures Take(s, t, p, c).tasks[t] == Take(s', t, p, c).tasks[t]
  {
    if Refreshing(p) {
      SamePhaseOfRefresh(s, s', t, p, c);
    } else {
      SamePhaseElsewhere(s, s', t, p, c);
    }
  }

  predicate WritesAccounts(p: Phase) {
    p.CreateRow? || p.MarkDisconnected? || p.RemoveRow?
  }

  predicate WritesTokens(p: Phase) {
    p.BumpWrite? || p.RefreshWrite? || p.ConsentWrite? || p.DropToken? || p.RemoveRow?
  }

  lemma WritersOnly(s: State, t: TaskId, p: Phase, c: Choice)
    requires CanAct(s, p, c)
    ensures !WritesAccounts(p) ==> Take(s, t, p, c).db.accounts == s.db.accounts
    ensures !WritesTokens(p) ==> Take(s, t, p, c).db.tokens == s.db.tokens
  {
  }

  lemma SameRows(s: State, s': State, t: TaskId, p: Phase, c: Choice, id: string)
    requires CanAct(s, p, c) && CanAct(s', p, c) && SameReads(s, s', p, c) && SameAccount(s, s', id)
    ensures SameAt(Take(s, t, p, c).db.accounts, Take(s', t, p, c).db.accounts, id)
  {
    if WritesAccounts(p) {
      SameWrittenRows(s, s', t, p, c, id);
    } else {
      WritersOnly(s, t, p, c);
      WritersOnly(s', t, p, c);
    }
  }

  lemma SameWrittenRows(s: State, s': State, t: TaskId, p: Phase, c: Choice, id: string)
    requires CanAct(s, p, c) && CanAct(s', p, c) && SameReads(s, s', p, c) && SameAccount(s, s', id)
    requires WritesAccounts(p)
    ensures SameAt(Take(s, t, p, c).db.accounts, Take(s', t, p, c).db.accounts, id)
  {
  }

  lemma SameTokens(s: State, s': State, t: TaskId, p: Phase, c: Choice, id: string)
    requires CanAct(s, p, c) && CanAct(s', p, c) && SameReads(s, s', p, c) && SameAccount(s, s', id)
    ensures SameAt(Take(s, t, p, c).db.tokens, Take(s', t, p, c).db.tokens, id)
  {
    if WritesTokens(p) {
      SameWrittenTokens(s, s', t, p, c, id);
    } else {
      WritersOnly(s, t, p, c);
      WritersOnly(s', t, p, c);
    }
  }

  lemma SameWrittenTokens(s: State, s': State, t: TaskId, p: Phase, c: Choice, id: string)
    requires CanAct(s, p, c) && CanAct(s', p, c) && SameReads(s, s', p, c) && SameAccount(s, s', id) && WritesTokens(p)
    ensures SameAt(Take(s, t, p, c).db.tokens, Take(s', t, p, c).db.tokens, id)
  {
  }

  lemma LockersOnly(s: State, t: TaskId, p: Phase, c: Choice)
    requires CanAct(s, p, c) && !LockStep(p)
    ensures Take(s, t, p, c).locks == s.locks
  {
  }

  lemma SameLocks(s: State, s': State, t: TaskId, p: Phase, c: Choice, id: string)
    requires CanAct(s, p, c) && CanAct(s', p, c) && SameReads(s, s', p, c) && SameAccount(s, s', id)
    ensures SameAt(Take(s, t, p, c).locks, Take(s', t, p, c).locks, id)
  {
    if !LockStep(p) {
      LockersOnly(s, t, p, c);
      LockersOnly(s', t, p, c);
    }
  }

  lemma SameIdentities(s: State, s': State, t: TaskId, p: Phase, c: Choice, id: string)
    requires CanAct(s, p, c) && CanAct(s', p, c) && SameAccount(s, s', id)
    requires p.Lookup? ==> c.Row? && SameAt(s.history.identity, s'.history.identity, c.id)
    ensures SameAt(Take(s, t, p, c).history.identity, Take(s', t, p, c).history.identity, id)
  {
    IssuersOnly(s, t, p, c);
    IssuersOnly(s', t, p, c);
  }

  lemma IssueStaysNested(q: Provider, q': Provider, grant: Grant, subject: string)
    requires Extends(q'.accessOf, q.accessOf) && Extends(q'.refreshOf, q.refreshOf)
    ensures Extends(Issue(q', grant, subject).accessOf, Issue(q, grant, subject).accessOf)
    ensures Extends(Issue(q', grant, subject).refreshOf, Issue(q, grant, subject).refreshOf)
  {
  }

  lemma ExchangeStaysNested(s: State, s': State, t: TaskId, p: Phase, c: Choice)
    requires CanAct(s, p, c) && CanAct(s', p, c) && Nested(s, s') && (p.Exchange? || p.CodeExchange?)
    ensures Nested(Take(s, t, p, c), Take(s', t, p, c))
  {
    IssuersOnly(s, t, p, c);
    IssuersOnly(s', t, p, c);
    if c.reply.Granted? {
      IssueStaysNested(s.provider, s'.provider, c.reply.grant, c.subject);
    }
  }

  lemma RecordsStayNested(s: State, s': State, t: TaskId, p: Phase, c: Choice)
    requires CanAct(s, p, c) && CanAct(s', p, c) && Nested(s, s')
    requires p.Lookup? ==> c.Row? && SameAt(s.history.identity, s'.history.identity, c.id)
    ensures Nested(Take(s, t, p, c), Take(s', t, p, c))
  {
    if p.Exchange? || p.CodeExchange? {
      ExchangeStaysNested(s, s', t, p, c);
    } else {
      IssuersOnly(s, t, p, c);
      IssuersOnly(s', t, p, c);
    }
  }

  lemma RecordsGrow(s: State, t: TaskId, p: Phase, c: Choice)
    requires CanAct(s, p, c)
    ensures Take(s, t, p, c).now == s.now && Extends(s.history.identity, Take(s, t, p, c).history.identity)
  {
  }

  lemma OthersAddNothing(s: State, t: TaskId, p: Phase, c: Choice, tenant: string, a: string)
    requires CanAct(s, p, c) && WorksFor(s, p, tenant) && tenant != a && forall id :: !HasTenant(s, id, a)
    ensures forall id :: !HasTenant(Take(s, t, p, c), id, a)
  {
    var s' := Take(s, t, p, c);
    IssuersOnly(s, t, p, c);
    forall id ensures !HasTenant(s', id, a) {
      assert !HasTenant(s, id, a);
      if p.Lookup? {
        assert s'.history.identity == s.history.identity
               || s'.history.identity == s.history.identity[c.id := Who(p.tenant, p.email)];
      }
    }
  }

  /** The same step of another tenant, with equal reads, leaves records that differ no more than before. */
  lemma RecordsAgree(s: State, s': State, a: string, t: TaskId, p: Phase, c: Choice, tenant: string)
    requires SameRecords(s, s', a) && Custody(s) && Custody(s') && tenant != a && WorksFor(s, p, tenant)
    requires PhaseOk(s', p) && CanAct(s, p, c)
    ensures CanAct(s', p, c) && SameReads(s, s', p, c)
    ensures SameRecords(Take(s, t, p, c), Take(s', t, p, c), a)
  {
    SameEnabled(s, s', a, p, c, tenant);
    OthersReadTheSame(s, s', a, p, c, tenant);
    if p.Lookup? {
      SameMatches(s, s', a, p.tenant, p.email);
      assert SameAccount(s, s', c.id);
    }
    var r, r' := Take(s, t, p, c), Take(s', t, p, c);
    RecordsGrow(s, t, p, c);
    RecordsGrow(s', t, p, c);
    RecordsStayNested(s, s', t, p, c);
    OthersAddNothing(s', t, p, c, tenant, a);
    forall id | !HasTenant(r, id, a) ensures SameAccount(r, r', id) {
      assert !HasTenant(s, id, a);
      assert SameAccount(s, s', id);
      SameRows(s, s', t, p, c, id);
      SameTokens(s, s', t, p, c, id);
      SameLocks(s, s', t, p, c, id);
      SameIdentities(s, s', t, p, c, id);
    }
  }

  /** The tasks of the others go on as they were, the one that stepped included. */
  lemma TasksAgree(s: State, s': State, r: State, r': State, owner: Owner, a: string, t: TaskId)
    requires Agree(s, s', owner, a) && Tenanted(s, owner) && Extends(s.history.identity, r.history.identity)
    requires t in r.tasks && t in r'.tasks && r.tasks == s.tasks[t := r.tasks[t]]
    requires r'.tasks == s'.tasks[t := r'.tasks[t]]
    requires r'.tasks[t] == Skipping(r, r.tasks[t], owner(t), a) && SameRecords(r, r', a)
    ensures Agree(r, r', owner, a)
  {
    forall u | owner(u) != Some(a) ensures SameTask(r, r', owner, a, u) {
      assert SameTask(s, s', owner, a, u);
      if u != t && u in s.tasks {
        assert Works(s, s.tasks[u], owner(u));
        SkippingStays(s, r, s.tasks[u], owner(u), a);
      }
    }
  }

  /** A step of a task that works for another tenant. */
  lemma OtherStepAgrees(s: State, s': State, owner: Owner, a: string, t: TaskId, p: Phase, c: Choice)
    requires Agree(s, s', owner, a) && Custody(s) && Custody(s') && Tenanted(s, owner)
    requires owner(t).Some? && owner(t) != Some(a) && t in s.tasks && s.tasks[t] == p && CanAct(s, p, c)
    ensures t in s'.tasks && s'.tasks[t] == p && CanAct(s', p, c)
    ensures Agree(Take(s, t, p, c), Take(s', t, p, c), owner, a)
  {
    assert SameTask(s, s', owner, a, t) && PhaseOk(s', s'.tasks[t]) && Works(s, p, owner(t));
    RecordsAgree(s, s', a, t, p, c, owner(t).value);
    SamePhase(s, s', t, p, c);
    OnlyItsTaskMoves(s, t, p, c);
    OnlyItsTaskMoves(s', t, p, c);
    RecordsGrow(s, t, p, c);
    TasksAgree(s, s', Take(s, t, p, c), Take(s', t, p, c), owner, a, t);
  }

  /** A batch's listing, without tenant `a`'s accounts, is the purged database's. */
  lemma SameListing(s: State, s': State, a: string, id: string, cutoff: int)
    requires SameRecords(s, s', a) && Custody(s) && Custody(s')
    ensures id in ActiveIds(s'.db) <==> id in ActiveIds(s.db) && !HasTenant(s, id, a)
    ensures id in InactiveIds(s'.db, cutoff) <==> id in InactiveIds(s.db, cutoff) && !HasTenant(s, id, a)
  {
    if HasTenant(s, id, a) {
      assert id !in s'.history.identity by { assert !HasTenant(s', id, a); }
    } else {
      assert SameAccount(s, s', id);
    }
  }

  lemma ListingAgrees(s: State, s': State, owner: Owner, a: string, t: TaskId, p: Phase, ids: seq<string>)
    requires Agree(s, s', owner, a) && Custody(s) && Custody(s') && Tenanted(s, owner) && owner(t).None?
    requires t in s.tasks && s.tasks[t] == p && Lists(p) && CanAct(s, p, Order(ids))
    ensures t in s'.tasks && s'.tasks[t] == p && CanAct(s', p, Order(Others(s, ids, a)))
    ensures Agree(Take(s, t, p, Order(ids)), Take(s', t, p, Order(Others(s, ids, a))), owner, a)
  {
    assert SameTask(s, s', owner, a, t);
    var cutoff := if p.ListStale? then Cutoff(s.now, p.days) else 0;
    forall id ensures id in ActiveIds(s'.db) <==> id in ActiveIds(s.db) && !HasTenant(s, id, a)
      ensures id in InactiveIds(s'.db, cutoff) <==> id in InactiveIds(s.db, cutoff) && !HasTenant(s, id, a)
    {
      SameListing(s, s', a, id, cutoff);
    }
    if p.ListActive? {
      OthersInOrder(s, ids, ActiveIds(s.db), ActiveIds(s'.db), a);
    } else {
      OthersInOrder(s, ids, InactiveIds(s.db, cutoff), InactiveIds(s'.db, cutoff), a);
    }
    NextSkips(s, ids, a);
    var r, r' := Goto(s, t, NextOf(ids)), Goto(s', t, NextOf(Others(s, ids, a)));
    GotoKeepsRecords(s, s', a, t, NextOf(ids), NextOf(Others(s, ids, a)));
    SkippingSame(s, r, NextOf(ids), None, a);
    TasksAgree(s, s', r, r', owner, a, t);
  }

  lemma GotoKeepsRecords(s: State, s': State, a: string, t: TaskId, p: Phase, p': Phase)
    requires SameRecords(s, s', a)
    ensures SameRecords(Goto(s, t, p), Goto(s', t, p'), a)
  {
    forall id | !HasTenant(Goto(s, t, p), id, a) ensures SameAccount(Goto(s, t, p), Goto(s', t, p'), id) {
      assert SameAccount(s, s', id);
    }
    forall id ensures !HasTenant(Goto(s', t, p'), id, a) {
      assert !HasTenant(s', id, a);
    }
  }

  /** A step of a batch at another tenant's account: the purged batch takes it too. */
  lemma BatchRecordsAgree(s: State, s': State, a: string, t: TaskId, p: Phase, c: Choice, after: After)
    requires SameRecords(s, s', a) && Custody(s) && Custody(s') && IsBatch(s, p) && Refreshing(p) && !AtOwn(s, p, a)
    requires CanAct(s, p, c) && PhaseOk(s', With(p, after))
    ensures CanAct(s', With(p, Return), c) && SameReads(s, s', With(p, Return), c) && CanAct(s', With(p, after), c)
    ensures SameRecords(Take(s, t, p, c), Take(s', t, With(p, after), c), a)
  {
    var p0, tenant := With(p, Return), s.history.identity[p.id].tenant;
    AfterIsCarried(s, t, p, c, Return);
    SamePhaseOk(s', With(p, after));
    RecordsAgree(s, s', a, t, p0, c, tenant);
    AfterIsCarried(s', t, p0, c, after);
    SameParts(Take(s, t, p0, c), Take(s', t, p0, c), Take(s, t, p, c), Take(s', t, With(p, after), c), a);
  }

  lemma SamePhaseOk(s: State, p: Phase)
    requires Refreshing(p) && PhaseOk(s, p)
    ensures PhaseOk(s, With(p, Return))
  {
  }

  lemma BatchPhaseAgrees(s: State, s': State, t: TaskId, p: Phase, c: Choice, after: After)
    requires Refreshing(p) && !p.Unlock? && CanAct(s, p, c)
    requires CanAct(s', With(p, Return), c) && SameReads(s, s', With(p, Return), c)
    ensures CanAct(s', With(p, after), c) && Refreshing(Take(s, t, p, c).tasks[t])
    ensures Take(s', t, With(p, after), c).tasks[t] == With(Take(s, t, p, c).tasks[t], after)
  {
    AfterIsCarried(s, t, p, c, Return);
    SamePhaseOfRefresh(s, s', t, With(p, Return), c);
    AfterIsCarried(s', t, With(p, Return), c, after);
  }

  lemma SameParts(s: State, s': State, r: State, r': State, a: string)
    requires SameRecords(s, s', a)
    requires r.db == s.db && r.locks == s.locks && r.provider == s.provider && r.history == s.history && r.now == s.now
    requires r'.db == s'.db && r'.locks == s'.locks && r'.provider == s'.provider && r'.history == s'.history
    requires r'.now == s'.now
    ensures SameRecords(r, r', a)
  {
    forall id | !HasTenant(r, id, a) ensures SameAccount(r, r', id) {
      assert SameAccount(s, s', id);
    }
    forall id ensures !HasTenant(r', id, a) {
      assert !HasTenant(s', id, a);
    }
  }

  lemma BatchNextSkips(s: State, s': State, a: string, t: TaskId, p: Phase, c: Choice)
    requires SameRecords(s, s', a) && Custody(s) && Custody(s') && IsBatch(s, p) && Refreshing(p) && !AtOwn(s, p, a)
    requires CanAct(s, p, c) && PhaseOk(s', With(p, Next(Others(s, p.after.rest, a))))
    ensures var p' := With(p, Next(Others(s, p.after.rest, a)));
            && CanAct(s', p', c) && SameRecords(Take(s, t, p, c), Take(s', t, p', c), a)
            && Take(s', t, p', c).tasks[t] == Skipping(Take(s, t, p, c), Take(s, t, p, c).tasks[t], None, a)
  {
    var after := Next(Others(s, p.after.rest, a));
    BatchRecordsAgree(s, s', a, t, p, c, after);
    BatchPhaseSkips(s, s', a, t, p, c);
    IssuersOnly(s, t, p, c);
    SkippingSame(s, Take(s, t, p, c), Take(s, t, p, c).tasks[t], None, a);
  }

  lemma BatchPhaseSkips(s: State, s': State, a: string, t: TaskId, p: Phase, c: Choice)
    requires Refreshing(p) && p.after.Next? && !AtOwn(s, p, a) && CanAct(s, p, c)
    requires CanAct(s', With(p, Return), c) && SameReads(s, s', With(p, Return), c)
    ensures var p' := With(p, Next(Others(s, p.after.rest, a)));
            CanAct(s', p', c) && Take(s', t, p', c).tasks[t] == Skipping(s, Take(s, t, p, c).tasks[t], None, a)
  {
    if p.Unlock? {
      UnlockSkips(s, s', a, t, p, c);
    } else {
      BatchPhaseAgrees(s, s', t, p, c, Next(Others(s, p.after.rest, a)));
      KeepsPlace(s, t, p, c);
    }
  }

  lemma UnlockSkips(s: State, s': State, a: string, t: TaskId, p: Phase, c: Choice)
    requires p.Unlock? && p.after.Next?
    ensures var p' := With(p, Next(Others(s, p.after.rest, a)));
            && CanAct(s, p, c) && CanAct(s', p', c)
            && Take(s', t, p', c).tasks[t] == Skipping(s, Take(s, t, p, c).tasks[t], None, a)
  {
    NextSkips(s, p.after.rest, a);
  }

  lemma KeepsPlace(s: State, t: TaskId, p: Phase, c: Choice)
    requires Refreshing(p) && !p.Unlock? && CanAct(s, p, c)
    ensures var p' := Take(s, t, p, c).tasks[t]; Refreshing(p') && p'.id == p.id && p'.after == p.after
  {
  }

  lemma BatchStepAgrees(s: State, s': State, owner: Owner, a: string, t: TaskId, p: Phase, c: Choice)
    requires Agree(s, s', owner, a) && Custody(s) && Custody(s') && Tenanted(s, owner) && owner(t).None?
    requires t in s.tasks && s.tasks[t] == p && Refreshing(p) && !AtOwn(s, p, a) && CanAct(s, p, c)
    ensures t in s'.tasks && CanAct(s', s'.tasks[t], c)
    ensures Agree(Take(s, t, p, c), Take(s', t, s'.tasks[t], c), owner, a)
  {
    assert SameTask(s, s', owner, a, t) && Works(s, p, None) && PhaseOk(s', s'.tasks[t]);
    BatchNextSkips(s, s', a, t, p, c);
    StepsLandAlike(s, s', owner, a, t, p, s'.tasks[t], c);
  }

  lemma StepsLandAlike(s: State, s': State, owner: Owner, a: string, t: TaskId, p: Phase, p': Phase, c: Choice)
    requires Agree(s, s', owner, a) && Custody(s) && Tenanted(s, owner)
    requires t in s.tasks && s.tasks[t] == p && CanAct(s, p, c)
    requires t in s'.tasks && s'.tasks[t] == p' && CanAct(s', p', c)
    requires var r, r' := Take(s, t, p, c), Take(s', t, p', c);
             && SameRecords(r, r', a) && t in r.tasks && t in r'.tasks
             && r'.tasks[t] == Skipping(r, r.tasks[t], owner(t), a)
    ensures Agree(Take(s, t, p, c), Take(s', t, p', c), owner, a)
  {
    OnlyItsTaskMoves(s, t, p, c);
    OnlyItsTaskMoves(s', t, p', c);
    RecordsGrow(s, t, p, c);
    TasksAgree(s, s', Take(s, t, p, c), Take(s', t, p', c), owner, a, t);
  }

  // ---- Whole runs -------------------------------------------------------------------

  lemma BatchGoesOn(s: State, t: TaskId, p: Phase, c: Choice)
    requires Custody(s) && IsBatch(s, p) && CanAct(s, p, c)
    ensures IsBatch(s, Take(s, t, p, c).tasks[t]) && Take(s, t, p, c).history.identity == s.history.identity
  {
    IssuersOnly(s, t, p, c);
    if Refreshing(p) {
      AfterIsCarried(s, t, p, c, Return);
    } else {
      ListedAreKnown(s, p, c);
    }
  }

  lemma ListedAreKnown(s: State, p: Phase, c: Choice)
    requires Custody(s) && Lists(p) && CanAct(s, p, c)
    ensures Known(s, c.ids) && IsBatch(s, NextOf(c.ids))
  {
    forall id | id in c.ids ensures id in s.history.identity {
      assert id in s.db.accounts && ForAccount(s, s.db.accounts[id]);
    }
    assert Known(s, c.ids);
  }

  lemma TakeKeepsWork(s: State, t: TaskId, p: Phase, c: Choice, who: Option<string>)
    requires Custody(s) && t in s.tasks && s.tasks[t] == p && Works(s, p, who) && CanAct(s, p, c)
    ensures Works(Take(s, t, p, c), Take(s, t, p, c).tasks[t], who)
  {
    assert PhaseOk(s, p);
    if who.None? {
      BatchGoesOn(s, t, p, c);
    } else if p.Lookup? {
      LookupWorks(s, t, p, c, who.value);
    } else {
      IssuersOnly(s, t, p, c);
      TakeKeepsWorkSimply(s, t, p, c, who.value);
    }
  }

  lemma LookupWorks(s: State, t: TaskId, p: Phase, c: Choice, tenant: string)
    requires Custody(s) && WorksFor(s, p, tenant) && CanAct(s, p, c) && p.Lookup?
    ensures WorksFor(Take(s, t, p, c), Take(s, t, p, c).tasks[t], tenant)
  {
  }

  predicate FindsByTenant(p: Phase) {
    p.DisconnectGet? || p.RemoveGet? || p.RemoveByEmail?
  }

  lemma FindsItsOwn(s: State, t: TaskId, p: Phase, c: Choice, tenant: string)
    requires Custody(s) && WorksFor(s, p, tenant) && CanAct(s, p, c) && FindsByTenant(p)
    ensures WorksFor(s, Take(s, t, p, c).tasks[t], tenant)
  {
  }

  lemma RefreshStaysWithItsOwn(s: State, t: TaskId, p: Phase, c: Choice, tenant: string)
    requires WorksFor(s, p, tenant) && CanAct(s, p, c) && Refreshing(p)
    ensures WorksFor(s, Take(s, t, p, c).tasks[t], tenant)
  {
  }

  predicate Consents(p: Phase) {
    p.CodeExchange? || p.Resolve? || p.CheckRow? || p.CreateRow? || p.ConsentWrite?
  }

  lemma ConsentStaysWithItsOwn(s: State, t: TaskId, p: Phase, c: Choice, tenant: string)
    requires WorksFor(s, p, tenant) && CanAct(s, p, c) && Consents(p)
    ensures WorksFor(s, Take(s, t, p, c).tasks[t], tenant)
  {
  }

  lemma StaysWithItsOwn(s: State, t: TaskId, p: Phase, c: Choice, tenant: string)
    requires WorksFor(s, p, tenant) && CanAct(s, p, c)
    requires !p.Lookup? && !FindsByTenant(p) && !Refreshing(p) && !Consents(p)
    requires t in s.tasks && s.tasks[t] == p
    ensures WorksFor(s, Take(s, t, p, c).tasks[t], tenant)
  {
  }

  lemma TakeKeepsWorkSimply(s: State, t: TaskId, p: Phase, c: Choice, tenant: string)
    requires Custody(s) && t in s.tasks && s.tasks[t] == p && WorksFor(s, p, tenant) && CanAct(s, p, c) && !p.Lookup?
    ensures WorksFor(s, Take(s, t, p, c).tasks[t], tenant)
  {
    if FindsByTenant(p) {
      FindsItsOwn(s, t, p, c, tenant);
    } else if Refreshing(p) {
      RefreshStaysWithItsOwn(s, t, p, c, tenant);
    } else if Consents(p) {
      ConsentStaysWithItsOwn(s, t, p, c, tenant);
    } else {
      StaysWithItsOwn(s, t, p, c, tenant);
    }
  }

  lemma WorkGoesOn(s: State, s': State, p: Phase, who: Option<string>)
    requires Works(s, p, who) && Grows(s, s')
    ensures Works(s', p, who)
  {
  }

  lemma StepKeepsTenanted(s: State, e: Event, owner: Owner)
    requires Custody(s) && Tenanted(s, owner) && Enabled(s, e)
    requires e.Begin? ==> Works(s, e.phase, owner(e.task))
    ensures Tenanted(Apply(s, e), owner)
  {
    var s' := Apply(s, e);
    StepKeepsCustody(s, e);
    forall t | t in s'.tasks ensures Works(s', s'.tasks[t], owner(t)) {
      if e.Act? && t == e.task {
        TakeKeepsWork(s, t, s.tasks[t], e.choice, owner(t));
      } else {
        if e.Act? {
          OnlyItsTaskMoves(s, e.task, s.tasks[e.task], e.choice);
        }
        WorkGoesOn(s, s', s'.tasks[t], owner(t));
      }
    }
  }

  lemma WaitAgrees(s: State, s': State, owner: Owner, a: string, until: int)
    requires Agree(s, s', owner, a) && 0 <= until < Timestamps.END_OF_TIME
    ensures Agree(s.(now := until), s'.(now := until), owner, a)
  {
    var r, r' := s.(now := until), s'.(now := until);
    forall id | !HasTenant(r, id, a) ensures SameAccount(r, r', id) {
      assert SameAccount(s, s', id);
    }
    forall id ensures !HasTenant(r', id, a) {
      assert !HasTenant(s', id, a);
    }
    forall u | owner(u) != Some(a) ensures SameTask(r, r', owner, a, u) {
      assert SameTask(s, s', owner, a, u);
      if u in s.tasks {
        SkippingSame(s, r, s.tasks[u], owner(u), a);
      }
    }
  }

  lemma BeginAgrees(s: State, s': State, owner: Owner, a: string, t: TaskId, p: Phase)
    requires Agree(s, s', owner, a) && Tenanted(s, owner) && t !in s.tasks && owner(t) != Some(a)
    requires IsCall(p) && Works(s, p, owner(t))
    ensures t !in s'.tasks && Agree(Goto(s, t, p), Goto(s', t, p), owner, a)
  {
    assert SameTask(s, s', owner, a, t);
    GotoKeepsRecords(s, s', a, t, p, p);
    TasksAgree(s, s', Goto(s, t, p), Goto(s', t, p), owner, a, t);
  }

  lemma ActAgrees(s: State, s': State, owner: Owner, a: string, t: TaskId, c: Choice)
    requires Agree(s, s', owner, a) && Custody(s) && Custody(s') && Tenanted(s, owner) && Enabled(s, Act(t, c))
    requires PurgeEvent(s, Act(t, c), owner, a).Some?
    ensures var e' := PurgeEvent(s, Act(t, c), owner, a).value;
            Enabled(s', e') && Agree(Apply(s, Act(t, c)), Apply(s', e'), owner, a)
  {
    var p := s.tasks[t];
    assert Works(s, p, owner(t));
    if owner(t).Some? {
      assert PurgeEvent(s, Act(t, c), owner, a) == Some(Act(t, c));
      OtherStepAgrees(s, s', owner, a, t, p, c);
    } else if Lists(p) {
      assert PurgeEvent(s, Act(t, c), owner, a) == Some(Act(t, Order(Others(s, c.ids, a))));
      ListingAgrees(s, s', owner, a, t, p, c.ids);
    } else {
      assert PurgeEvent(s, Act(t, c), owner, a) == Some(Act(t, c)) && Refreshing(p);
      BatchStepAgrees(s, s', owner, a, t, p, c);
    }
  }

  /** A step that stays, or what is left of it, can be taken in the purged run with the same effect on the others. */
  lemma StepAgrees(s: State, s': State, owner: Owner, a: string, e: Event)
    requires Agree(s, s', owner, a) && Custody(s) && Custody(s') && Tenanted(s, owner) && Enabled(s, e)
    requires (e.Begin? ==> Works(s, e.phase, owner(e.task))) && PurgeEvent(s, e, owner, a).Some?
    ensures var e' := PurgeEvent(s, e, owner, a).value;
            Enabled(s', e') && Agree(Apply(s, e), Apply(s', e'), owner, a)
  {
    match e
    case Begin(t, p) => BeginAgrees(s, s', owner, a, t, p);
    case Wait(until) => WaitAgrees(s, s', owner, a, until);
    case Act(t, c) => ActAgrees(s, s', owner, a, t, c);
  }

  /**
   * Noninterference: for every interleaving, the run without tenant `a` is itself a run, and
   * it agrees with the full run on everything that is not tenant `a`'s.
   */
  lemma {:induction false} PurgedRunAgrees(es: seq<Event>, owner: Owner, a: string)
    requires IsRun(INIT, es) && Attributed(INIT, es, owner)
    ensures IsRun(INIT, Purge(es, owner, a))
    ensures Agree(Run(INIT, es), Run(INIT, Purge(es, owner, a)), owner, a)
    ensures Tenanted(Run(INIT, es), owner)
  {
    if es != [] {
      var front, e := es[..|es| - 1], es[|es| - 1];
      PurgedRunAgrees(front, owner, a);
      var s, s' := Run(INIT, front), Run(INIT, Purge(front, owner, a));
      RunKeepsCustody(INIT, front);
      RunKeepsCustody(INIT, Purge(front, owner, a));
      StepKeepsTenanted(s, e, owner);
      match PurgeEvent(s, e, owner, a)
      case Some(e') =>
        StepAgrees(s, s', owner, a, e);
        OneMore(INIT, Purge(front, owner, a), e');
      case None =>
        if e.Begin? {
          VanishedBeginIsInvisible(s, s', owner, a, e.task, e.phase);
        } else {
          VanishedStepIsInvisible(s, s', owner, a, e.task, e.choice);
        }
    }
  }

  /**
   * What another tenant can observe: the results of its calls, its accounts, its tokens, and
   * what it finds by email are those of the run in which tenant `a` never did anything and no
   * batch did anything for it.
   */
  lemma OtherTenantsCannotTell(es: seq<Event>, owner: Owner, a: string, b: string)
    requires IsRun(INIT, es) && Attributed(INIT, es, owner) && a != b
    ensures IsRun(INIT, Purge(es, owner, a))
    ensures var s, s' := Run(INIT, es), Run(INIT, Purge(es, owner, a));
            && (forall t | owner(t) == Some(b) :: SameAt(s.tasks, s'.tasks, t))
            && (forall id :: Owns(s.db, b, id) <==> Owns(s'.db, b, id))
            && (forall id | Owns(s.db, b, id) ::
                  s.db.accounts[id] == s'.db.accounts[id] && SameAt(s.db.tokens, s'.db.tokens, id))
            && (forall email :: Matches(s.db, b, email) == Matches(s'.db, b, email))
  {
    PurgedRunAgrees(es, owner, a);
    var s, s' := Run(INIT, es), Run(INIT, Purge(es, owner, a));
    RunKeepsCustody(INIT, es);
    RunKeepsCustody(INIT, Purge(es, owner, a));
    forall t | owner(t) == Some(b) ensures SameAt(s.tasks, s'.tasks, t) {
      assert SameTask(s, s', owner, a, t);
    }
    forall id ensures Owns(s.db, b, id) <==> Owns(s'.db, b, id)
      ensures Owns(s.db, b, id) ==> s.db.accounts[id] == s'.db.accounts[id] && SameAt(s.db.tokens, s'.db.tokens, id)
    {
      SameOwns(s, s', a, b, id);
    }
    forall email ensures Matches(s.db, b, email) == Matches(s'.db, b, email) {
      SameMatches(s, s', a, b, email);
    }
  }
}
