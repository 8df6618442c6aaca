/**
 * `send_authorized` among other tasks (`src/provider/graph.rs:45-62`): a client that gets a
 * token, and when Graph answers 401 forces a refresh and gets one again. How many exchanges that
 * takes, and when the retry sends the refused token once more.
 */
module LifecycleClient {
  import opened Prelude
  import opened Tables
  import opened TokenRules
  import opened Lifecycle
  import opened LifecycleLocks
  import opened LifecycleCustody
  import opened LifecycleDisconnect
  import opened LifecycleChain

  /** The three calls of one request, each a task of its own. */
  datatype Client = Client(id: string, first: TaskId, forced: TaskId, again: TaskId) {
    predicate Proper() {
      first != forced && first != again && forced != again
    }
  }

  /** The calls begin in turn, the forced refresh once a token was sent, the second read once it succeeded. */
  predicate Follows(s: State, e: Event, c: Client) {
    e.Begin? ==>
      && (e.task == c.first ==> e.phase == GetRead(c.id))
      && (e.task == c.forced ==> e.phase == LockEntry(c.id, Return) && c.first in s.tasks && s.tasks[c.first].Got?)
      && (e.task == c.again ==> e.phase == GetRead(c.id) && c.forced in s.tasks && s.tasks[c.forced].Finished?)
  }

  predicate Serves(s: State, es: seq<Event>, c: Client)
    requires IsRun(s, es)
  {
    es == [] || (Serves(s, es[..|es| - 1], c) && Follows(Run(s, es[..|es| - 1]), es[|es| - 1], c))
  }

  // ---- How many exchanges -----------------------------------------------------------

  /** One call of `get_access_token` or `refresh_account`, not a batch. */
  predicate IsOwnCall(p: Phase) {
    p.GetRead? || p.BumpWrite? || p.GetReadBack? || IsDone(p) || (Refreshing(p) && !p.after.Next?)
  }

  /** Its one exchange is still to come. */
  predicate MayExchange(p: Phase) {
    p.GetRead? || p.LockEntry? || p.LockWait? || p.RefreshRead? || p.Exchange?
  }

  function Exchanges(s: State, es: seq<Event>, t: TaskId): nat
    requires IsRun(s, es)
  {
    if es == [] then 0
    else
      var m, e := Run(s, es[..|es| - 1]), es[|es| - 1];
      Exchanges(s, es[..|es| - 1], t) + if e.Act? && e.task == t && m.tasks[t].Exchange? then 1 else 0
  }

  lemma RefreshCallStays(s: State, t: TaskId, p: Phase, c: Choice)
    requires Refreshing(p) && !p.after.Next? && CanAct(s, p, c)
    ensures var p' := Take(s, t, p, c).tasks[t];
            && IsOwnCall(p') && (MayExchange(p') ==> MayExchange(p)) && (p.Exchange? ==> !MayExchange(p'))
  {
  }

  lemma CallStays(s: State, t: TaskId, p: Phase, c: Choice)
    requires IsOwnCall(p) && t in s.tasks && s.tasks[t] == p && CanAct(s, p, c)
    ensures var p' := Take(s, t, p, c).tasks[t];
            && IsOwnCall(p') && (MayExchange(p') ==> MayExchange(p)) && (p.Exchange? ==> !MayExchange(p'))
  {
    if Refreshing(p) {
      RefreshCallStays(s, t, p, c);
    }
  }

  predicate Spends(s: State, es: seq<Event>, t: TaskId)
    requires IsRun(s, es)
  {
    var s' := Run(s, es);
    if t in s'.tasks
    then IsOwnCall(s'.tasks[t]) && Exchanges(s, es, t) + (if MayExchange(s'.tasks[t]) then 1 else 0) <= 1
    else Exchanges(s, es, t) == 0
  }

  lemma {:induction false} EachCallExchangesOnce(s: State, es: seq<Event>, c: Client, t: TaskId)
    requires IsRun(s, es) && c.Proper() && Serves(s, es, c) && t in {c.first, c.forced, c.again} && t !in s.tasks
    ensures Spends(s, es, t)
  {
    if es != [] {
      var front, e := es[..|es| - 1], es[|es| - 1];
      EachCallExchangesOnce(s, front, c, t);
      var m := Run(s, front);
      if e.Act? {
        OnlyItsTaskMoves(m, e.task, m.tasks[e.task], e.choice);
        if e.task == t {
          CallStays(m, t, m.tasks[t], e.choice);
        }
      }
    }
  }

  /** In every interleaving one request makes at most three exchanges, one for each of its calls. */
  lemma AtMostThreeExchanges(s: State, es: seq<Event>, c: Client)
    requires IsRun(s, es) && c.Proper() && Serves(s, es, c)
    requires c.first !in s.tasks && c.forced !in s.tasks && c.again !in s.tasks
    ensures Exchanges(s, es, c.first) <= 1 && Exchanges(s, es, c.forced) <= 1 && Exchanges(s, es, c.again) <= 1
    ensures Exchanges(s, es, c.first) + Exchanges(s, es, c.forced) + Exchanges(s, es, c.again) <= 3
  {
    EachCallExchangesOnce(s, es, c, c.first);
    EachCallExchangesOnce(s, es, c, c.forced);
    EachCallExchangesOnce(s, es, c, c.again);
  }

  // ---- What an account's row was last written by ------------------------------------

  /** About to write the account's row. */
  predicate WritesRow(p: Phase, id: string) {
    || ((p.BumpWrite? || p.RefreshWrite?) && p.id == id)
    || (p.ConsentWrite? && p.account.id == id)
  }

  function WrittenAccess(p: Phase): Secret
    requires p.BumpWrite? || p.RefreshWrite? || p.ConsentWrite?
  {
    if p.BumpWrite? then p.read.access else if p.RefreshWrite? then p.renewed.access else p.token.access
  }

  predicate LandsOn(s: State, e: Event, id: string) {
    e.Act? && e.task in s.tasks && WritesRow(s.tasks[e.task], id) && id in s.db.accounts
  }

  /** The last write that landed on the row since `s`. */
  function LastWrite(s: State, es: seq<Event>, id: string): Option<Phase>
    requires IsRun(s, es)
  {
    if es == [] then None
    else
      var m, e := Run(s, es[..|es| - 1]), es[|es| - 1];
      if LandsOn(m, e, id) then Some(m.tasks[e.task]) else LastWrite(s, es[..|es| - 1], id)
  }

  lemma LandingStores(s: State, t: TaskId, p: Phase, c: Choice, id: string)
    requires CanAct(s, p, c) && WritesRow(p, id) && id in s.db.accounts
    ensures var db := Take(s, t, p, c).db; id in db.tokens && db.tokens[id].access == WrittenAccess(p)
  {
  }

  lemma OthersStoreNothing(s: State, t: TaskId, p: Phase, c: Choice, id: string)
    requires CanAct(s, p, c) && !(WritesRow(p, id) && id in s.db.accounts)
    ensures var db := Take(s, t, p, c).db; id in db.tokens ==> id in s.db.tokens && db.tokens[id] == s.db.tokens[id]
  {
    if WritesTokenRow(p) {
      if id in Take(s, t, p, c).db.tokens {
        TheseStore(s, t, p, c, id);
      }
    } else {
      OnlyTheseStore(s, t, p, c);
    }
  }

  /** The row holds what was last written to it. */
  lemma {:induction false} RowIsLastWrite(s: State, es: seq<Event>, id: string)
    requires IsRun(s, es) && LastWrite(s, es, id).Some? && id in Run(s, es).db.tokens
    ensures WritesRow(LastWrite(s, es, id).value, id)
    ensures Run(s, es).db.tokens[id].access == WrittenAccess(LastWrite(s, es, id).value)
  {
    var front, e := es[..|es| - 1], es[|es| - 1];
    var m := Run(s, front);
    if LandsOn(m, e, id) {
      LandingStores(m, e.task, m.tasks[e.task], e.choice, id);
    } else {
      if e.Act? {
        OthersStoreNothing(m, e.task, m.tasks[e.task], e.choice, id);
      }
      RowIsLastWrite(s, front, id);
    }
  }

  // ---- The forced refresh -----------------------------------------------------------

  /** The forced refresh, past its exchange, wrote the row. */
  predicate Landed(s: State, es: seq<Event>, c: Client)
    requires IsRun(s, es)
  {
    es != [] &&
    (var m, e := Run(s, es[..|es| - 1]), es[|es| - 1];
     || Landed(s, es[..|es| - 1], c)
     || (e.Act? && e.task == c.forced && c.forced in m.tasks && m.tasks[c.forced].RefreshWrite? && LandsOn(m, e, c.id)))
  }

  /** Where the forced refresh stands: what it carries is new, and it ends well only if it wrote. */
  predicate ForcedOk(s: State, p: Phase, landed: bool, id: string, past: set<Secret>) {
    || p.Failed?
    || (p.Finished? && landed)
    || (Refreshing(p) && p.id == id && p.after.Return?
        && (p.RefreshWrite? ==> p.renewed.access !in past)
        && (p.Unlock? && p.succeeded ==> landed))
  }

  /** No refresh of the account is about to write an old token. */
  predicate RefreshesAreNew(s: State, id: string, past: set<Secret>) {
    forall t | t in s.tasks && s.tasks[t].RefreshWrite? && s.tasks[t].id == id :: s.tasks[t].renewed.access !in past
  }

  predicate ForcedInvariant(s: State, es: seq<Event>, c: Client, past: set<Secret>)
    requires IsRun(s, es)
  {
    var s' := Run(s, es);
    && (c.forced in s'.tasks ==> ForcedOk(s', s'.tasks[c.forced], Landed(s, es, c), c.id, past))
    && (c.forced !in s'.tasks ==> c.again !in s'.tasks)
    && (c.again in s'.tasks ==> Landed(s, es, c))
    && (Landed(s, es, c) ==>
          && RefreshesAreNew(s', c.id, past) && LastWrite(s, es, c.id).Some?
          && (LastWrite(s, es, c.id).value.RefreshWrite? ==> LastWrite(s, es, c.id).value.renewed.access !in past))
  }

  predicate PastIsIssued(s: State, past: set<Secret>) {
    past <= s.provider.accessOf.Keys
  }

  /** A refresh past its exchange carries a token just granted, or one it carried before. */
  lemma RenewedIsNew(s: State, t: TaskId, p: Phase, c: Choice, past: set<Secret>)
    requires CanAct(s, p, c) && PastIsIssued(s, past)
    ensures var p' := Take(s, t, p, c).tasks[t];
            p'.RefreshWrite? ==> p.Exchange? && p'.id == p.id && p'.after == p.after && p'.renewed.access !in past
  {
  }

  lemma ForcedStep(s: State, t: TaskId, p: Phase, c: Choice, landed: bool, id: string, past: set<Secret>)
    requires CanAct(s, p, c) && PastIsIssued(s, past) && ForcedOk(s, p, landed, id, past)
    ensures var landed' := landed || (p.RefreshWrite? && id in s.db.accounts);
            ForcedOk(Take(s, t, p, c), Take(s, t, p, c).tasks[t], landed', id, past)
  {
  }

  lemma StaysIssued(s: State, es: seq<Event>, past: set<Secret>)
    requires Custody(s) && IsRun(s, es) && PastIsIssued(s, past)
    ensures PastIsIssued(Run(s, es), past)
  {
    RunKeepsCustody(s, es);
  }

  lemma RefreshesStayNew(s: State, t: TaskId, p: Phase, c: Choice, id: string, past: set<Secret>)
    requires t in s.tasks && s.tasks[t] == p && CanAct(s, p, c) && PastIsIssued(s, past) && RefreshesAreNew(s, id, past)
    ensures RefreshesAreNew(Take(s, t, p, c), id, past)
  {
    OnlyItsTaskMoves(s, t, p, c);
    RenewedIsNew(s, t, p, c, past);
  }

  /** While the forced refresh holds the lock, it alone is about to write a renewed token. */
  lemma ForcedIsAlone(s: State, t: TaskId, id: string, past: set<Secret>)
    requires Locked(s) && t in s.tasks && s.tasks[t].RefreshWrite? && s.tasks[t].id == id
    requires s.tasks[t].renewed.access !in past
    ensures RefreshesAreNew(s, id, past)
  {
  }

  lemma {:induction false} ForcedRefreshIsNew(s: State, es: seq<Event>, c: Client, past: set<Secret>)
    requires Locked(s) && Custody(s) && PastIsIssued(s, past) && c.Proper()
    requires c.forced !in s.tasks && c.again !in s.tasks && IsRun(s, es) && Serves(s, es, c)
    ensures ForcedInvariant(s, es, c, past)
  {
    if es != [] {
      var front, e := es[..|es| - 1], es[|es| - 1];
      ForcedRefreshIsNew(s, front, c, past);
      if e.Act? {
        ForcedKeepsInvariant(s, es, c, past);
      }
    }
  }

  lemma ForcedKeepsInvariant(s: State, es: seq<Event>, c: Client, past: set<Secret>)
    requires Locked(s) && Custody(s) && PastIsIssued(s, past) && c.Proper()
    requires es != [] && es[|es| - 1].Act? && IsRun(s, es) && Serves(s, es, c)
    requires ForcedInvariant(s, es[..|es| - 1], c, past)
    ensures ForcedInvariant(s, es, c, past)
  {
    var front, e := es[..|es| - 1], es[|es| - 1];
    var m := Run(s, front);
    var p := m.tasks[e.task];
    RunKeepsLocked(s, front);
    StaysIssued(s, front, past);
    OnlyItsTaskMoves(m, e.task, p, e.choice);
    if e.task == c.forced {
      ForcedStep(m, e.task, p, e.choice, Landed(s, front, c), c.id, past);
      if p.RefreshWrite? {
        ForcedIsAlone(m, e.task, c.id, past);
      }
    }
    if Landed(s, es, c) {
      RefreshesStayNew(m, e.task, p, e.choice, c.id, past);
    }
  }

  // ---- What the retry sends ---------------------------------------------------------

  /** Puts back a token granted before: a cache hit that read it then, or a consent granted it then. */
  predicate Restores(p: Phase, past: set<Secret>) {
    (p.BumpWrite? && p.read.access in past) || (p.ConsentWrite? && p.token.access in past)
  }

  predicate LastRestores(s: State, es: seq<Event>, id: string, past: set<Secret>)
    requires IsRun(s, es)
  {
    LastWrite(s, es, id).Some? && Restores(LastWrite(s, es, id).value, past)
  }

  /** Once the forced refresh has written, an old token is in the row exactly if such a write came last. */
  lemma RowIsPastIffRestored(s: State, es: seq<Event>, c: Client, past: set<Secret>)
    requires IsRun(s, es) && ForcedInvariant(s, es, c, past) && Landed(s, es, c) && c.id in Run(s, es).db.tokens
    ensures Run(s, es).db.tokens[c.id].access in past <==> LastRestores(s, es, c.id, past)
  {
    RowIsLastWrite(s, es, c.id);
  }

  /** When the second read read the row for the last time, the last write had put back an old token. */
  predicate ReadsRestored(s: State, es: seq<Event>, c: Client, past: set<Secret>)
    requires IsRun(s, es)
  {
    es != [] &&
    (var front, e := es[..|es| - 1], es[|es| - 1];
     var m := Run(s, front);
     if e.Act? && e.task == c.again && (m.tasks[c.again].GetRead? || m.tasks[c.again].GetReadBack?)
     then LastRestores(s, front, c.id, past)
     else ReadsRestored(s, front, c, past))
  }

  /** Where the second read stands: what it carries is old exactly if that is what it read. */
  predicate AgainOk(p: Phase, id: string, restored: bool, past: set<Secret>) {
    && IsOwnCall(p)
    && (Refreshing(p) ==> p.id == id && p.after.ReadBack?)
    && (p.GetRead? || p.GetReadBack? || p.BumpWrite? || p.Got? ==> p.id == id)
    && (p.BumpWrite? ==> (p.read.access in past <==> restored))
    && (p.Got? ==> (p.access in past <==> restored))
  }

  lemma ReadStep(s: State, t: TaskId, p: Phase, c: Choice, id: string, past: set<Secret>)
    requires CanAct(s, p, c) && (p.GetRead? || p.GetReadBack?) && p.id == id
    ensures var p' := Take(s, t, p, c).tasks[t];
            id in s.db.tokens ==> AgainOk(p', id, s.db.tokens[id].access in past, past)
    ensures id !in s.db.tokens ==> forall restored :: AgainOk(Take(s, t, p, c).tasks[t], id, restored, past)
  {
  }

  lemma CarryStep(s: State, t: TaskId, p: Phase, c: Choice, id: string, restored: bool, past: set<Secret>)
    requires CanAct(s, p, c) && !p.GetRead? && !p.GetReadBack? && AgainOk(p, id, restored, past)
    ensures AgainOk(Take(s, t, p, c).tasks[t], id, restored, past)
  {
  }

  lemma {:induction false} AgainIsOk(s: State, es: seq<Event>, c: Client, past: set<Secret>)
    requires Locked(s) && Custody(s) && PastIsIssued(s, past) && c.Proper()
    requires c.forced !in s.tasks && c.again !in s.tasks && IsRun(s, es) && Serves(s, es, c)
    ensures c.again in Run(s, es).tasks ==>
              AgainOk(Run(s, es).tasks[c.again], c.id, ReadsRestored(s, es, c, past), past)
  {
    if es != [] {
      var front, e := es[..|es| - 1], es[|es| - 1];
      AgainIsOk(s, front, c, past);
      var m := Run(s, front);
      if e.Act? {
        OnlyItsTaskMoves(m, e.task, m.tasks[e.task], e.choice);
        if e.task == c.again {
          AgainStep(s, es, c, past);
        }
      }
    }
  }

  lemma AgainStep(s: State, es: seq<Event>, c: Client, past: set<Secret>)
    requires Locked(s) && Custody(s) && PastIsIssued(s, past) && c.Proper()
    requires c.forced !in s.tasks && c.again !in s.tasks && es != [] && IsRun(s, es) && Serves(s, es, c)
    requires es[|es| - 1].Act? && es[|es| - 1].task == c.again
    requires var front := es[..|es| - 1];
             AgainOk(Run(s, front).tasks[c.again], c.id, ReadsRestored(s, front, c, past), past)
    ensures c.again in Run(s, es).tasks
    ensures AgainOk(Run(s, es).tasks[c.again], c.id, ReadsRestored(s, es, c, past), past)
  {
    var front, e := es[..|es| - 1], es[|es| - 1];
    var m := Run(s, front);
    var p := m.tasks[c.again];
    OnlyItsTaskMoves(m, c.again, p, e.choice);
    if p.GetRead? || p.GetReadBack? {
      ForcedRefreshIsNew(s, front, c, past);
      ReadStep(m, c.again, p, e.choice, c.id, past);
      if c.id in m.db.tokens {
        RowIsPastIffRestored(s, front, c, past);
      }
    } else {
      CarryStep(m, c.again, p, e.choice, c.id, ReadsRestored(s, front, c, past), past);
    }
  }

  /**
   * Exactly when is the token the retry sends older than the refusal? `s` is the state when
   * Graph refused the first token: when, at the read that supplied it, the last write to the row
   * since the forced refresh wrote was that of a cache hit that had read an old token, or of a
   * consent that had been granted one.
   */
  lemma RetryIsPastIffRestored(s: State, es: seq<Event>, c: Client, past: set<Secret>)
    requires Locked(s) && Custody(s) && past == s.provider.accessOf.Keys && c.Proper()
    requires c.forced !in s.tasks && c.again !in s.tasks && IsRun(s, es) && Serves(s, es, c)
    requires c.again in Run(s, es).tasks && Run(s, es).tasks[c.again].Got?
    ensures Run(s, es).tasks[c.again].id == c.id
    ensures Run(s, es).tasks[c.again].access in past <==> ReadsRestored(s, es, c, past)
  {
    AgainIsOk(s, es, c, past);
  }

  // ---- The refused token itself -----------------------------------------------------

  /** The access token a consent holds and has stored nowhere yet. */
  function HeldAccess(p: Phase): Option<Secret> {
    match p
    case Resolve(_, grant, _) => Some(grant.access)
    case Lookup(_, _, _, grant, _) => Some(grant.access)
    case CheckRow(_, token) => Some(token.access)
    case CreateRow(_, token) => Some(token.access)
    case ConsentWrite(_, token) => Some(token.access)
    case _ => None
  }

  /** Access tokens a phase took from the table or would store there again. */
  function SeenAccess(p: Phase): set<Secret> {
    match p
    case BumpWrite(_, read) => {read.access}
    case Exchange(_, _, current) => {current.access}
    case RefreshWrite(_, _, current, renewed) => {current.access, renewed.access}
    case Got(_, access) => {access}
    case _ => {}
  }

  predicate HeldByNone(s: State, access: Secret) {
    forall t | t in s.tasks :: HeldAccess(s.tasks[t]) != Some(access)
  }

  /** What a consent holds, no other consent holds, and nobody has seen. */
  predicate AccessCustody(s: State) {
    && HeldApart(s)
    && (forall id | id in s.db.tokens :: HeldByNone(s, s.db.tokens[id].access))
    && (forall t, access | t in s.tasks && access in SeenAccess(s.tasks[t]) :: HeldByNone(s, access))
  }

  lemma OutsideConsents(s: State, t: TaskId, p: Phase, c: Choice)
    requires CanAct(s, p, c) && !InConsent(p)
    ensures HeldAccess(Take(s, t, p, c).tasks[t]).None? || IsDone(p)
  {
  }

  lemma ConsentHolds(s: State, t: TaskId, p: Phase, c: Choice)
    requires CanAct(s, p, c) && InConsent(p)
    ensures var p' := Take(s, t, p, c).tasks[t];
            && SeenAccess(p') == {}
            && (HeldAccess(p').Some? ==>
                  HeldAccess(p') == HeldAccess(p) || HeldAccess(p').value !in s.provider.accessOf)
  {
    if !p.CodeExchange? {
      ConsentHoldsOn(s, t, p, c);
    }
  }

  lemma ConsentHoldsOn(s: State, t: TaskId, p: Phase, c: Choice)
    requires CanAct(s, p, c) && InConsent(p) && !p.CodeExchange?
    ensures var p' := Take(s, t, p, c).tasks[t];
            SeenAccess(p') == {} && (HeldAccess(p').Some? ==> HeldAccess(p') == HeldAccess(p))
  {
  }

  /** Consents come to hold only what was just granted. */
  lemma HeldIsKeptOrNew(s: State, t: TaskId, p: Phase, c: Choice)
    requires t in s.tasks && s.tasks[t] == p && CanAct(s, p, c)
    ensures var held := HeldAccess(Take(s, t, p, c).tasks[t]);
            held.Some? ==> held == HeldAccess(p) || held.value !in s.provider.accessOf
  {
    if InConsent(p) {
      ConsentHolds(s, t, p, c);
    } else {
      OutsideConsents(s, t, p, c);
    }
  }

  /** What a step newly sees was in the table, or was just granted to a refresh. */
  lemma SeenIsKnownOrNew(s: State, t: TaskId, p: Phase, c: Choice, access: Secret)
    requires t in s.tasks && s.tasks[t] == p && CanAct(s, p, c) && access in SeenAccess(Take(s, t, p, c).tasks[t])
    ensures HeldAccess(Take(s, t, p, c).tasks[t]).None?
    ensures || access in SeenAccess(p)
            || (exists id :: id in s.db.tokens && s.db.tokens[id].access == access)
            || (access !in s.provider.accessOf && p.Exchange?)
  {
    if InConsent(p) {
      ConsentHolds(s, t, p, c);
    } else {
      OutsideConsents(s, t, p, c);
      if access !in SeenAccess(p) {
        SeenOutsideConsents(s, t, p, c, access);
      }
    }
  }

  lemma SeenOutsideConsents(s: State, t: TaskId, p: Phase, c: Choice, access: Secret)
    requires t in s.tasks && s.tasks[t] == p && CanAct(s, p, c) && !InConsent(p)
    requires access in SeenAccess(Take(s, t, p, c).tasks[t]) && access !in SeenAccess(p)
    ensures || (exists id :: id in s.db.tokens && s.db.tokens[id].access == access)
            || (access !in s.provider.accessOf && p.Exchange?)
  {
    if !p.Exchange? {
      assert p.GetRead? || p.GetReadBack? || p.RefreshRead?;
      assert p.id in s.db.tokens && access == s.db.tokens[p.id].access;
    }
  }

  predicate WritesTokenRow(p: Phase) {
    p.BumpWrite? || p.RefreshWrite? || p.ConsentWrite?
  }

  lemma OnlyTheseStore(s: State, t: TaskId, p: Phase, c: Choice)
    requires CanAct(s, p, c) && !WritesTokenRow(p)
    ensures forall id | id in Take(s, t, p, c).db.tokens ::
              id in s.db.tokens && Take(s, t, p, c).db.tokens[id] == s.db.tokens[id]
  {
  }

  lemma TheseStore(s: State, t: TaskId, p: Phase, c: Choice, id: string)
    requires CanAct(s, p, c) && WritesTokenRow(p) && id in Take(s, t, p, c).db.tokens
    ensures HeldAccess(Take(s, t, p, c).tasks[t]).None?
    ensures || (id in s.db.tokens && Take(s, t, p, c).db.tokens[id] == s.db.tokens[id])
            || (WritesRow(p, id) && id in s.db.accounts && Take(s, t, p, c).db.tokens[id].access == WrittenAccess(p))
  {
  }

  /** What a step stores was stored before, was seen, or was what this consent held and holds no more. */
  lemma StoredIsKnown(s: State, t: TaskId, p: Phase, c: Choice, id: string)
    requires CanAct(s, p, c) && id in Take(s, t, p, c).db.tokens
    ensures var access := Take(s, t, p, c).db.tokens[id].access;
            || (id in s.db.tokens && s.db.tokens[id].access == access)
            || access in SeenAccess(p)
            || (HeldAccess(p) == Some(access) && HeldAccess(Take(s, t, p, c).tasks[t]).None?)
  {
    if WritesTokenRow(p) {
      TheseStore(s, t, p, c, id);
    } else {
      OnlyTheseStore(s, t, p, c);
    }
  }

  /** Held tokens were issued. */
  lemma HeldIsIssued(s: State, t: TaskId)
    requires Custody(s) && t in s.tasks && HeldAccess(s.tasks[t]).Some?
    ensures HeldAccess(s.tasks[t]).value in s.provider.accessOf
  {
    assert PhaseOk(s, s.tasks[t]);
  }

  lemma StaysHeldByNone(s: State, t: TaskId, p: Phase, c: Choice, access: Secret)
    requires t in s.tasks && s.tasks[t] == p && CanAct(s, p, c)
    requires HeldByNone(s, access) && access in s.provider.accessOf
    ensures HeldByNone(Take(s, t, p, c), access)
  {
    OnlyItsTaskMoves(s, t, p, c);
    HeldIsKeptOrNew(s, t, p, c);
  }

  lemma SeenIsIssued(s: State, t: TaskId, access: Secret)
    requires Custody(s) && t in s.tasks && access in SeenAccess(s.tasks[t])
    ensures access in s.provider.accessOf
  {
    assert PhaseOk(s, s.tasks[t]);
  }

  predicate HeldApart(s: State) {
    forall t, u | t in s.tasks && u in s.tasks && t != u && HeldAccess(s.tasks[t]).Some? ::
      HeldAccess(s.tasks[t]) != HeldAccess(s.tasks[u])
  }

  lemma ActKeepsHeldApart(s: State, t: TaskId, p: Phase, c: Choice)
    requires Custody(s) && HeldApart(s) && t in s.tasks && s.tasks[t] == p && CanAct(s, p, c)
    ensures HeldApart(Take(s, t, p, c))
  {
    OnlyItsTaskMoves(s, t, p, c);
    HeldIsKeptOrNew(s, t, p, c);
    forall u | u in s.tasks && HeldAccess(s.tasks[u]).Some?
      ensures HeldAccess(s.tasks[u]).value in s.provider.accessOf
    {
      HeldIsIssued(s, u);
    }
  }

  lemma ActKeepsAccessCustody(s: State, t: TaskId, p: Phase, c: Choice)
    requires Custody(s) && AccessCustody(s) && t in s.tasks && s.tasks[t] == p && CanAct(s, p, c)
    ensures AccessCustody(Take(s, t, p, c))
  {
    var s' := Take(s, t, p, c);
    ActKeepsHeldApart(s, t, p, c);
    forall id | id in s'.db.tokens ensures HeldByNone(s', s'.db.tokens[id].access) {
      StoredStaysUnheld(s, t, p, c, id);
    }
    forall u, access | u in s'.tasks && access in SeenAccess(s'.tasks[u]) ensures HeldByNone(s', access) {
      SeenStaysUnheld(s, t, p, c, u, access);
    }
  }

  lemma StoredStaysUnheld(s: State, t: TaskId, p: Phase, c: Choice, id: string)
    requires Custody(s) && AccessCustody(s) && t in s.tasks && s.tasks[t] == p && CanAct(s, p, c)
    requires id in Take(s, t, p, c).db.tokens
    ensures HeldByNone(Take(s, t, p, c), Take(s, t, p, c).db.tokens[id].access)
  {
    var access := Take(s, t, p, c).db.tokens[id].access;
    StoredIsKnown(s, t, p, c, id);
    if id in s.db.tokens && s.db.tokens[id].access == access {
      assert Belongs(s, id, s.db.tokens[id]);
      StaysHeldByNone(s, t, p, c, access);
    } else if access in SeenAccess(p) {
      SeenIsIssued(s, t, access);
      StaysHeldByNone(s, t, p, c, access);
    } else {
      OnlyItsTaskMoves(s, t, p, c);
    }
  }

  lemma SeenStaysUnheld(s: State, t: TaskId, p: Phase, c: Choice, u: TaskId, access: Secret)
    requires Custody(s) && AccessCustody(s) && t in s.tasks && s.tasks[t] == p && CanAct(s, p, c)
    requires u in Take(s, t, p, c).tasks && access in SeenAccess(Take(s, t, p, c).tasks[u])
    ensures HeldByNone(Take(s, t, p, c), access)
  {
    OnlyItsTaskMoves(s, t, p, c);
    if u != t {
      SeenIsIssued(s, u, access);
      StaysHeldByNone(s, t, p, c, access);
    } else {
      SeenIsKnownOrNew(s, t, p, c, access);
      if access in SeenAccess(p) {
        SeenIsIssued(s, t, access);
        StaysHeldByNone(s, t, p, c, access);
      } else if access !in s.provider.accessOf {
        NewIsHeldByNone(s, t, p, c, access);
      } else {
        var id :| id in s.db.tokens && s.db.tokens[id].access == access;
        assert Belongs(s, id, s.db.tokens[id]);
        StaysHeldByNone(s, t, p, c, access);
      }
    }
  }

  lemma NewIsHeldByNone(s: State, t: TaskId, p: Phase, c: Choice, access: Secret)
    requires Custody(s) && t in s.tasks && s.tasks[t] == p && CanAct(s, p, c) && access !in s.provider.accessOf
    requires HeldAccess(Take(s, t, p, c).tasks[t]).None?
    ensures HeldByNone(Take(s, t, p, c), access)
  {
    OnlyItsTaskMoves(s, t, p, c);
    forall u | u in s.tasks && u != t ensures HeldAccess(s.tasks[u]) != Some(access) {
      if HeldAccess(s.tasks[u]).Some? {
        HeldIsIssued(s, u);
      }
    }
  }

  lemma BeginKeepsAccessCustody(s: State, t: TaskId, p: Phase)
    requires AccessCustody(s) && Enabled(s, Begin(t, p))
    ensures AccessCustody(Goto(s, t, p))
  {
    var s' := Goto(s, t, p);
    assert HeldAccess(p).None? && SeenAccess(p) == {};
    forall access | HeldByNone(s, access) ensures HeldByNone(s', access) {
    }
    forall u, access | u in s'.tasks && access in SeenAccess(s'.tasks[u]) ensures HeldByNone(s', access) {
      assert u != t && HeldByNone(s, access);
    }
  }

  lemma WaitKeepsAccessCustody(s: State, until: Timestamps.Instant)
    requires AccessCustody(s)
    ensures AccessCustody(s.(now := until))
  {
    forall access | HeldByNone(s, access) ensures HeldByNone(s.(now := until), access) {
    }
  }

  /** It holds in every reachable state. */
  lemma {:induction false} RunKeepsAccessCustody(s: State, es: seq<Event>)
    requires Custody(s) && AccessCustody(s) && IsRun(s, es)
    ensures AccessCustody(Run(s, es))
  {
    if es != [] {
      var front, e := es[..|es| - 1], es[|es| - 1];
      RunKeepsAccessCustody(s, front);
      RunKeepsCustody(s, front);
      var m := Run(s, front);
      match e
      case Begin(t, p) => BeginKeepsAccessCustody(m, t, p);
      case Wait(until) => WaitKeepsAccessCustody(m, until);
      case Act(t, c) => ActKeepsAccessCustody(m, t, m.tasks[t], c);
    }
  }

  /** No consent will ever store a token once handed out. */
  lemma {:induction false} StaysUnheld(s: State, es: seq<Event>, access: Secret)
    requires Custody(s) && HeldByNone(s, access) && access in s.provider.accessOf && IsRun(s, es)
    ensures HeldByNone(Run(s, es), access) && access in Run(s, es).provider.accessOf
  {
    RunKeepsCustody(s, es);
    if es != [] {
      var front, e := es[..|es| - 1], es[|es| - 1];
      StaysUnheld(s, front, access);
      if e.Act? {
        StaysHeldByNone(Run(s, front), e.task, Run(s, front).tasks[e.task], e.choice, access);
      }
    }
  }

  lemma {:induction false} ConsentsNeverLandIt(s: State, es: seq<Event>, id: string, access: Secret)
    requires Custody(s) && HeldByNone(s, access) && access in s.provider.accessOf && IsRun(s, es)
    ensures var last := LastWrite(s, es, id);
            last.Some? && last.value.ConsentWrite? ==> last.value.token.access != access
  {
    if es != [] {
      var front, e := es[..|es| - 1], es[|es| - 1];
      ConsentsNeverLandIt(s, front, id, access);
      StaysUnheld(s, front, access);
    }
  }

  /** At the read that supplied the retry, the last write was that of a cache hit that had read this token. */
  predicate ReadsBumped(s: State, es: seq<Event>, c: Client, refused: Secret)
    requires IsRun(s, es)
  {
    es != [] &&
    (var front, e := es[..|es| - 1], es[|es| - 1];
     var m := Run(s, front);
     if e.Act? && e.task == c.again && (m.tasks[c.again].GetRead? || m.tasks[c.again].GetReadBack?)
     then
       var last := LastWrite(s, front, c.id);
       last.Some? && last.value.BumpWrite? && last.value.read.access == refused
     else ReadsBumped(s, front, c, refused))
  }

  lemma {:induction false} RestoredIsBumped(s: State, es: seq<Event>, c: Client, refused: Secret)
    requires Custody(s) && HeldByNone(s, refused) && refused in s.provider.accessOf && IsRun(s, es)
    ensures ReadsRestored(s, es, c, {refused}) <==> ReadsBumped(s, es, c, refused)
  {
    if es != [] {
      var front := es[..|es| - 1];
      RestoredIsBumped(s, front, c, refused);
      ConsentsNeverLandIt(s, front, c.id, refused);
    }
  }

  predicate WasSent(s: State, c: Client, refused: Secret) {
    c.first in s.tasks && s.tasks[c.first] == Got(c.id, refused)
  }

  /**
   * Exactly when does the retry send the refused token again? When, at the read that supplies
   * it, the last write to the row since the forced refresh wrote is that of a cache hit that had
   * read the refused token before.
   */
  lemma RetrySendsRefusedIffBumped(s: State, es: seq<Event>, c: Client, refused: Secret)
    requires Locked(s) && Custody(s) && AccessCustody(s) && c.Proper() && WasSent(s, c, refused)
    requires c.forced !in s.tasks && c.again !in s.tasks && IsRun(s, es) && Serves(s, es, c)
    requires c.again in Run(s, es).tasks && Run(s, es).tasks[c.again].Got?
    ensures Run(s, es).tasks[c.again].access == refused <==> ReadsBumped(s, es, c, refused)
  {
    assert PhaseOk(s, s.tasks[c.first]) && refused in SeenAccess(s.tasks[c.first]);
    AgainIsOk(s, es, c, {refused});
    RestoredIsBumped(s, es, c, refused);
  }

  // ---- On the schedule --------------------------------------------------------------

  /** No cache hit is about to write this token to the account's row. */
  predicate BumpsForgot(s: State, id: string, access: Secret) {
    forall t | t in s.tasks && s.tasks[t].BumpWrite? && s.tasks[t].id == id :: s.tasks[t].read.access != access
  }

  predicate Forgotten(s: State, es: seq<Event>, c: Client, refused: Secret)
    requires IsRun(s, es)
  {
    var last := LastWrite(s, es, c.id);
    Landed(s, es, c) ==>
      && BumpsForgot(Run(s, es), c.id, refused)
      && (last.Some? && last.value.BumpWrite? ==> last.value.read.access != refused)
  }

  lemma ForgottenRow(s: State, es: seq<Event>, c: Client, refused: Secret)
    requires Custody(s) && HeldByNone(s, refused) && refused in s.provider.accessOf && IsRun(s, es)
    requires ForcedInvariant(s, es, c, {refused}) && Forgotten(s, es, c, refused) && Landed(s, es, c)
    requires c.id in Run(s, es).db.tokens
    ensures Run(s, es).db.tokens[c.id].access != refused
  {
    RowIsLastWrite(s, es, c.id);
    ConsentsNeverLandIt(s, es, c.id, refused);
  }

  lemma BumpsReadTheRow(s: State, t: TaskId, p: Phase, c: Choice)
    requires CanAct(s, p, c)
    ensures var p' := Take(s, t, p, c).tasks[t];
            p'.BumpWrite? ==> p.GetRead? && p'.id == p.id && p.id in s.db.tokens && p'.read == s.db.tokens[p.id]
  {
  }

  lemma StaysForgotten(s: State, t: TaskId, p: Phase, c: Choice, id: string, access: Secret)
    requires t in s.tasks && s.tasks[t] == p && CanAct(s, p, c) && BumpsForgot(s, id, access)
    requires id in s.db.tokens ==> s.db.tokens[id].access != access
    ensures BumpsForgot(Take(s, t, p, c), id, access)
  {
    OnlyItsTaskMoves(s, t, p, c);
    BumpsReadTheRow(s, t, p, c);
  }

  /** With no cache hit pending when it writes, the forced refresh writes the refused token off. */
  lemma LandingForgets(s: State, t: TaskId, p: Phase, c: Choice, access: Secret)
    requires t in s.tasks && s.tasks[t] == p && p.RefreshWrite? && CanAct(s, p, c)
    requires forall u | u in s.tasks && s.tasks[u].BumpWrite? :: s.tasks[u].id != p.id
    ensures BumpsForgot(Take(s, t, p, c), p.id, access)
  {
    OnlyItsTaskMoves(s, t, p, c);
  }

  lemma {:induction false} ApartForgets(s: State, es: seq<Event>, c: Client, refused: Secret)
    requires Locked(s) && Custody(s) && HeldByNone(s, refused) && refused in s.provider.accessOf && c.Proper()
    requires c.forced !in s.tasks && c.again !in s.tasks && IsRun(s, es) && Serves(s, es, c) && BumpsApart(s, es)
    ensures Forgotten(s, es, c, refused)
  {
    if es != [] {
      var front, e := es[..|es| - 1], es[|es| - 1];
      ApartForgets(s, front, c, refused);
      if e.Act? {
        ForgetsOn(s, es, c, refused);
      }
    }
  }

  lemma ForgetsOn(s: State, es: seq<Event>, c: Client, refused: Secret)
    requires Locked(s) && Custody(s) && HeldByNone(s, refused) && refused in s.provider.accessOf && c.Proper()
    requires c.forced !in s.tasks && c.again !in s.tasks && IsRun(s, es) && Serves(s, es, c) && BumpsApart(s, es)
    requires es != [] && es[|es| - 1].Act? && Forgotten(s, es[..|es| - 1], c, refused)
    ensures Forgotten(s, es, c, refused)
  {
    var front, e := es[..|es| - 1], es[|es| - 1];
    var m := Run(s, front);
    if Landed(s, front, c) {
      ForcedRefreshIsNew(s, front, c, {refused});
      if c.id in m.db.tokens {
        ForgottenRow(s, front, c, refused);
      }
      StaysForgotten(m, e.task, m.tasks[e.task], e.choice, c.id, refused);
    } else if Landed(s, es, c) {
      LandingForgets(m, e.task, m.tasks[e.task], e.choice, refused);
    }
  }

  lemma {:induction false} ForgottenIsNotRead(s: State, es: seq<Event>, c: Client, refused: Secret)
    requires Locked(s) && Custody(s) && HeldByNone(s, refused) && refused in s.provider.accessOf && c.Proper()
    requires c.forced !in s.tasks && c.again !in s.tasks && IsRun(s, es) && Serves(s, es, c) && BumpsApart(s, es)
    ensures !ReadsBumped(s, es, c, refused)
  {
    if es != [] {
      var front := es[..|es| - 1];
      ForgottenIsNotRead(s, front, c, refused);
      ApartForgets(s, front, c, refused);
      ForcedRefreshIsNew(s, front, c, {refused});
    }
  }

  /**
   * On the schedule alone: if no refresh writes its token while a cache hit of the same account
   * is about to write back its own, the retry never sends the refused token.
   */
  lemma RetryIsNewIfBumpsApart(s: State, es: seq<Event>, c: Client, refused: Secret)
    requires Locked(s) && Custody(s) && AccessCustody(s) && c.Proper() && WasSent(s, c, refused)
    requires c.forced !in s.tasks && c.again !in s.tasks && IsRun(s, es) && Serves(s, es, c) && BumpsApart(s, es)
    requires c.again in Run(s, es).tasks && Run(s, es).tasks[c.again].Got?
    ensures Run(s, es).tasks[c.again].access != refused
  {
    assert PhaseOk(s, s.tasks[c.first]) && refused in SeenAccess(s.tasks[c.first]);
    RetrySendsRefusedIffBumped(s, es, c, refused);
    ForgottenIsNotRead(s, es, c, refused);
  }

  // ---- It does happen ---------------------------------------------------------------

  lemma PushServing(s: State, es: seq<Event>, m: State, e: Event, m': State, c: Client)
    requires IsRun(s, es) && Serves(s, es, c) && Run(s, es) == m
    requires Enabled(m, e) && Follows(m, e, c) && Apply(m, e) == m'
    ensures IsRun(s, es + [e]) && Serves(s, es + [e], c) && Run(s, es + [e]) == m'
  {
    OneMore(s, es, e);
    assert (es + [e])[..|es + [e]| - 1] == es;
  }

  /**
   * A cache hit pending with a token that is still good by its expiry: it lands, and the retry is
   * handed that token, whatever the forced refresh wrote before.
   */
  lemma PendingBumpIsHandedOut(s: State, u: TaskId, c: Client) returns (es: seq<Event>)
    requires u in s.tasks && s.tasks[u].BumpWrite? && s.tasks[u].id == c.id && c.id in s.db.accounts
    requires CacheHit(s.tasks[u].read, s.now) && c.forced in s.tasks && s.tasks[c.forced].Finished?
    requires c.Proper() && c.again !in s.tasks
    ensures IsRun(s, es) && Serves(s, es, c)
    ensures var got := Got(c.id, s.tasks[u].read.access); Run(s, es).tasks == s.tasks[u := got][c.again := got]
  {
    var bump, begin, read := Act(u, Nothing), Begin(c.again, GetRead(c.id)), Act(c.again, Nothing);
    var p := s.tasks[u];
    var got := Got(c.id, p.read.access);
    var s1 := Goto(s.(db := Upsert(s.db, c.id, Bumped(p.read, s.now))), u, got);
    PushServing(s, [], s, bump, s1, c);
    PushServing(s, [] + [bump], s1, begin, Goto(s1, c.again, GetRead(c.id)), c);
    var s3 := Goto(s1, c.again, got);
    assert Goto(s1, c.again, GetRead(c.id)).tasks[c.again := got] == s3.tasks;
    PushServing(s, [] + [bump] + [begin], Goto(s1, c.again, GetRead(c.id)), read, s3, c);
    es := [] + [bump] + [begin] + [read];
  }
}
