/**
 * The token lifecycle as a machine of concurrent tasks (`src/auth/token.rs`,
 * `src/cli/mod.rs:120-133`, `src/api/routes.rs:41-49`).
 *
 * A task is a program counter with its locals. Every store call is one atomic step, because
 * each takes the connection mutex for itself; awaiting the provider or the account lock is a
 * point where every other task may run. One process only: the locks are local to it.
 */
module Lifecycle {
  import opened Prelude
  import opened Timestamps
  import opened Tables
  import opened TokenRules

  type TaskId = nat

  /** What the caller of `refresh_account` does next. */
  datatype After =
    | Return                      // a plain refresh
    | ReadBack                    // `get_access_token` reads the token it returns
    | Next(rest: seq<string>)     // a batch goes on with these accounts

  datatype Phase =
    // get_access_token
    | GetRead(id: string)
    | BumpWrite(id: string, read: StoredToken)
    | GetReadBack(id: string)
    // refresh_account
    | LockEntry(id: string, after: After)
    | LockWait(id: string, after: After)
    | RefreshRead(id: string, after: After)
    | Exchange(id: string, after: After, current: StoredToken)
    | RefreshWrite(id: string, after: After, current: StoredToken, renewed: StoredToken)
    | Unlock(id: string, after: After, succeeded: bool)
    // refresh_all, refresh_stale
    | ListActive
    | ListStale(days: int)
    // complete_flow, after its flow was taken
    | CodeExchange(tenant: string)
    | Resolve(tenant: string, grant: Grant, refresh: Secret)
    | Lookup(tenant: string, email: string, name: Option<string>, grant: Grant, refresh: Secret)
    | CheckRow(account: Account, token: StoredToken)
    | CreateRow(account: Account, token: StoredToken)
    | ConsentWrite(account: Account, token: StoredToken)
    // disconnect
    | DisconnectGet(tenant: string, id: string)
    | DropToken(tenant: string, id: string)
    | MarkDisconnected(tenant: string, id: string)
    // remove_account
    | RemoveGet(tenant: string, key: string)
    | RemoveByEmail(tenant: string, email: string)
    | RemoveRow(tenant: string, id: string)
    // finished
    | Finished
    | Failed
    | Got(id: string, access: Secret)

  datatype Who = Who(tenant: string, email: string)

  /** The provider's side: to whom each token was issued, and which refresh tokens are spent. */
  datatype Provider = Provider(accessOf: map<Secret, string>, refreshOf: map<Secret, string>, spent: set<Secret>)

  /**
   * Observations on the run, never read by the code: the account each id was made for, the
   * account each stored or refreshed token belongs to, the bumps whose window a refresh's
   * write fell into, and the consents whose lookup another consent's insert made stale.
   */
  datatype History = History(identity: map<string, Who>, home: map<Secret, string>,
                             overtaken: set<TaskId>, raced: set<TaskId>)

  datatype State = State(db: Db<StoredToken>, locks: map<string, Option<TaskId>>, tasks: map<TaskId, Phase>,
                         now: Instant, provider: Provider, history: History)

  const INIT := State(Db(map[], map[]), map[], map[], 0, Provider(map[], map[], {}), History(map[], map[], {}, {}))

  /** What the outside decides in a step. */
  datatype Choice =
    | Nothing
    | Answer(reply: Reply, subject: string)          // the token endpoint, and who consented
    | Profile(found: bool, name: Option<string>)     // the profile endpoint
    | Row(id: string)                                // a matching row, or a fresh UUID
    | Order(ids: seq<string>)                        // the order a query lists its rows in

  datatype Event =
    | Begin(task: TaskId, phase: Phase)
    | Wait(until: Instant)
    | Act(task: TaskId, choice: Choice)

  /** Calls a client, the callback or the background loop may start. */
  predicate IsCall(p: Phase) {
    || p.GetRead? || (p.LockEntry? && p.after.Return?) || p.ListActive? || p.ListStale?
    || p.CodeExchange? || p.DisconnectGet? || p.RemoveGet?
  }

  predicate IsDone(p: Phase) {
    p.Finished? || p.Failed? || p.Got?
  }

  /** Anywhere in `complete_flow` after its flow was taken. */
  predicate InConsent(p: Phase) {
    p.CodeExchange? || p.Resolve? || p.Lookup? || p.CheckRow? || p.CreateRow? || p.ConsentWrite?
  }

  /** Between acquiring the account lock and releasing it. */
  predicate Critical(p: Phase) {
    p.RefreshRead? || p.Exchange? || p.RefreshWrite? || p.Unlock?
  }

  // ---- Steps ------------------------------------------------------------------------

  /** New tokens are new: never issued before, to anyone. */
  predicate FreshGrant(p: Provider, grant: Grant, presented: Option<Secret>) {
    && grant.access !in p.accessOf
    && (grant.refresh.Some? ==> grant.refresh == presented || grant.refresh.value !in p.refreshOf)
  }

  predicate IsOrderOf(ids: seq<string>, s: set<string>) {
    && (forall i, j | 0 <= i < j < |ids| :: ids[i] != ids[j])
    && (forall id | id in ids :: id in s) && (forall id | id in s :: id in ids)
  }

  predicate CanAct(s: State, p: Phase, c: Choice) {
    match p
    case LockWait(id, _) => id in s.locks && s.locks[id].None?
    case Exchange(_, _, current) =>
      && c.Answer? && current.refresh in s.provider.refreshOf
      && c.subject == s.provider.refreshOf[current.refresh]
      && (c.reply.Granted? ==> FreshGrant(s.provider, c.reply.grant, Some(current.refresh)))
    case CodeExchange(_) =>
      c.Answer? && (c.reply.Granted? ==> FreshGrant(s.provider, c.reply.grant, None))
    case Resolve(_, grant, _) => c.Profile? && grant.access in s.provider.accessOf
    case Lookup(tenant, email, _, _, _) =>
      && c.Row?
      && if Matches(s.db, tenant, email) == {} then c.id !in s.history.identity
         else c.id in Matches(s.db, tenant, email)
    case RemoveByEmail(tenant, email) =>
      c.Row? && (Matches(s.db, tenant, email) != {} ==> c.id in Matches(s.db, tenant, email))
    case ListActive => c.Order? && IsOrderOf(c.ids, ActiveIds(s.db))
    case ListStale(days) => c.Order? && IsOrderOf(c.ids, InactiveIds(s.db, Cutoff(s.now, days)))
    case Finished => false
    case Failed => false
    case Got(_, _) => false
    case _ => true
  }

  predicate Enabled(s: State, e: Event) {
    match e
    case Begin(task, phase) => task !in s.tasks && IsCall(phase)
    case Wait(until) => until >= s.now
    case Act(task, choice) => task in s.tasks && CanAct(s, s.tasks[task], choice)
  }

  function Goto(s: State, t: TaskId, p: Phase): State {
    s.(tasks := s.tasks[t := p])
  }

  function NextOf(ids: seq<string>): Phase {
    if ids == [] then Finished else LockEntry(ids[0], Next(ids[1..]))
  }

  function AfterUnlock(id: string, after: After, succeeded: bool): Phase {
    match after
    case Return => if succeeded then Finished else Failed
    case ReadBack => if succeeded then GetReadBack(id) else Failed
    case Next(rest) => NextOf(rest)
  }

  function Issue(p: Provider, grant: Grant, subject: string): Provider {
    p.(accessOf := p.accessOf[grant.access := subject],
       refreshOf := if grant.refresh.Some? then p.refreshOf[grant.refresh.value := subject] else p.refreshOf)
  }

  /** The refresh tokens `current` hands over to: spent, and homed like it. */
  function AfterExchange(s: State, id: string, current: StoredToken, grant: Grant, subject: string): State {
    var p := Issue(s.provider, grant, subject);
    if Rotates(current, grant)
    then s.(provider := p.(spent := p.spent + {current.refresh}),
            history := s.history.(home := s.history.home[grant.refresh.value := id]))
    else s.(provider := p)
  }

  /** Cache hits still holding a spent token of this account when its refresh is written. */
  function Overtaken(s: State, id: string): set<TaskId> {
    set t | t in s.tasks && s.tasks[t].BumpWrite? && s.tasks[t].id == id && s.tasks[t].read.refresh in s.provider.spent
  }

  /** Consents between lookup and insert whose answer this new row changes. */
  function Raced(s: State, a: Account): set<TaskId> {
    set t | t in s.tasks && (s.tasks[t].CheckRow? || s.tasks[t].CreateRow?)
            && s.tasks[t].account.tenant == a.tenant && Lower(s.tasks[t].account.email) == Lower(a.email)
  }

  function LookupAccount(s: State, tenant: string, email: string, name: Option<string>, id: string): Account {
    if id in Matches(s.db, tenant, email)
    then s.db.accounts[id].(displayName := name, status := Active, updatedAt := s.now)
    else Account(id, tenant, email, name, Active, s.now, s.now)
  }

  function Take(s: State, t: TaskId, p: Phase, c: Choice): State
    requires CanAct(s, p, c)
  {
    match p
    case GetRead(id) =>
      if id in s.db.tokens && CacheHit(s.db.tokens[id], s.now) then
        Goto(s, t, if BumpDue(s.db.tokens[id], s.now) then BumpWrite(id, s.db.tokens[id])
                   else Got(id, s.db.tokens[id].access))
      else Goto(s, t, LockEntry(id, ReadBack))
    case BumpWrite(id, read) =>
      Goto(s.(db := Upsert(s.db, id, Bumped(read, s.now))), t, Got(id, read.access))
    case GetReadBack(id) =>
      Goto(s, t, if id in s.db.tokens then Got(id, s.db.tokens[id].access) else Failed)
    case LockEntry(id, after) =>
      Goto(s.(locks := if id in s.locks then s.locks else s.locks[id := None]), t, LockWait(id, after))
    case LockWait(id, after) =>
      Goto(s.(locks := s.locks[id := Some(t)]), t, RefreshRead(id, after))
    case RefreshRead(id, after) =>
      Goto(s, t, if id in s.db.tokens then Exchange(id, after, s.db.tokens[id]) else Unlock(id, after, false))
    case Exchange(id, after, current) =>
      if c.reply.Refused? then Goto(s, t, Unlock(id, after, false))
      else Goto(AfterExchange(s, id, current, c.reply.grant, c.subject), t,
                RefreshWrite(id, after, current, Renewed(current, c.reply.grant, s.now)))
    case RefreshWrite(id, after, _, renewed) =>
      Goto(s.(db := Upsert(s.db, id, renewed),
              history := s.history.(overtaken := s.history.overtaken + Overtaken(s, id))),
           t, Unlock(id, after, id in s.db.accounts))
    case Unlock(id, after, succeeded) =>
      Goto(s.(locks := s.locks[id := None]), t, AfterUnlock(id, after, succeeded))
    case ListActive => Goto(s, t, NextOf(c.ids))
    case ListStale(_) => Goto(s, t, NextOf(c.ids))
    case CodeExchange(tenant) =>
      if c.reply.Refused? then Goto(s, t, Failed)
      else
        var grant := c.reply.grant;
        Goto(s.(provider := Issue(s.provider, grant, c.subject)), t,
             if grant.refresh.None? then Failed else Resolve(tenant, grant, grant.refresh.value))
    case Resolve(tenant, grant, refresh) =>
      Goto(s, t, if c.found then Lookup(tenant, s.provider.accessOf[grant.access], c.name, grant, refresh) else Failed)
    case Lookup(tenant, email, name, grant, refresh) =>
      var account := LookupAccount(s, tenant, email, name, c.id);
      var identity := if c.id in s.history.identity then s.history.identity
                      else s.history.identity[c.id := Who(tenant, email)];
      var token := StoredToken(grant.access, refresh, grant.scope, grant.expiresAt, Some(s.now), s.now);
      Goto(s.(history := s.history.(identity := identity)), t, CheckRow(account, token))
    case CheckRow(account, token) =>
      Goto(s, t, if Owns(s.db, account.tenant, account.id) then ConsentWrite(account, token)
                 else CreateRow(account, token))
    case CreateRow(account, token) =>
      if CanCreate(s.db, account) then
        Goto(s.(db := Create(s.db, account),
                history := s.history.(raced := s.history.raced + (Raced(s, account) - {t}))),
             t, ConsentWrite(account, token))
      else Goto(s, t, Failed)
    case ConsentWrite(account, token) =>
      var stored := account.id in s.db.accounts;
      Goto(s.(db := Upsert(s.db, account.id, token),
              history := if stored then s.history.(home := s.history.home[token.refresh := account.id]) else s.history),
           t, if stored then Finished else Failed)
    case DisconnectGet(tenant, id) =>
      Goto(s, t, if Owns(s.db, tenant, id) then DropToken(tenant, id) else Failed)
    case DropToken(tenant, id) =>
      Goto(s.(db := Drop(s.db, id)), t, MarkDisconnected(tenant, id))
    case MarkDisconnected(tenant, id) =>
      Goto(s.(db := SetStatus(s.db, tenant, id, Disconnected, s.now)), t,
           if Owns(s.db, tenant, id) then Finished else Failed)
    case RemoveGet(tenant, key) =>
      Goto(s, t, if Owns(s.db, tenant, key) then RemoveRow(tenant, key) else RemoveByEmail(tenant, key))
    case RemoveByEmail(tenant, email) =>
      Goto(s, t, if Matches(s.db, tenant, email) == {} then Failed else RemoveRow(tenant, c.id))
    case RemoveRow(tenant, id) =>
      Goto(s.(db := Remove(s.db, tenant, id)), t, Finished)
    case Finished => s
    case Failed => s
    case Got(_, _) => s
  }

  function Apply(s: State, e: Event): State
    requires Enabled(s, e)
  {
    match e
    case Begin(task, phase) => Goto(s, task, phase)
    case Wait(until) => s.(now := until)
    case Act(task, choice) => Take(s, task, s.tasks[task], choice)
  }

  /** A step changes no other task's position or locals, and no step moves the clock. */
  lemma OnlyItsTaskMoves(s: State, t: TaskId, p: Phase, c: Choice)
    requires CanAct(s, p, c) && t in s.tasks && s.tasks[t] == p
    ensures t in Take(s, t, p, c).tasks && Take(s, t, p, c).tasks == s.tasks[t := Take(s, t, p, c).tasks[t]]
    ensures Take(s, t, p, c).now == s.now
  {
  }

  // ---- Runs -------------------------------------------------------------------------

  predicate IsRun(s: State, es: seq<Event>)
    decreases |es|, 0
  {
    es == [] || (IsRun(s, es[..|es| - 1]) && Enabled(Run(s, es[..|es| - 1]), es[|es| - 1]))
  }

  /** The state a run leads to. */
  function Run(s: State, es: seq<Event>): State
    requires IsRun(s, es)
    decreases |es|, 1
  {
    if es == [] then s else Apply(Run(s, es[..|es| - 1]), es[|es| - 1])
  }

  /** A run is its first part followed by the rest. */
  lemma {:induction false} RunSplits(s: State, es: seq<Event>, k: nat)
    requires k <= |es| && IsRun(s, es)
    ensures IsRun(s, es[..k]) && IsRun(Run(s, es[..k]), es[k..])
    ensures Run(s, es) == Run(Run(s, es[..k]), es[k..])
  {
    if k == |es| {
      assert es[..k] == es && es[k..] == [];
    } else {
      var front := es[..|es| - 1];
      RunSplits(s, front, k);
      assert front[..k] == es[..k] && front[k..] == es[k..][..|es| - k - 1];
    }
  }

  lemma {:induction false} RunsJoin(s: State, es: seq<Event>, fs: seq<Event>)
    requires IsRun(s, es) && IsRun(Run(s, es), fs)
    ensures IsRun(s, es + fs) && Run(s, es + fs) == Run(Run(s, es), fs)
  {
    if fs == [] {
      assert es + fs == es;
    } else {
      RunsJoin(s, es, fs[..|fs| - 1]);
      assert (es + fs)[..|es + fs| - 1] == es + fs[..|fs| - 1];
    }
  }

  lemma OneMore(s: State, es: seq<Event>, e: Event)
    requires IsRun(s, es) && Enabled(Run(s, es), e)
    ensures IsRun(s, es + [e]) && Run(s, es + [e]) == Apply(Run(s, es), e)
  {
    assert (es + [e])[..|es + [e]| - 1] == es;
  }
}
