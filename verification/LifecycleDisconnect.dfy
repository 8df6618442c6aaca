/**
 * Accounts without a token: how long a disconnected account stays so, and how a refresh in
 * flight ends when its account is removed (`src/auth/token.rs:148-189`, `211-240`).
 */
module LifecycleDisconnect {
  import opened Prelude
  import opened Tables
  import opened TokenRules
  import opened Lifecycle
  import opened LifecycleCustody

  /** Past the read of a token that this task may write back. */
  predicate HoldsTokenOf(p: Phase, id: string) {
    (p.BumpWrite? || p.Exchange? || p.RefreshWrite?) && p.id == id
  }

  /** No token, and no cache hit or refresh in flight that still carries one. */
  predicate Quiet(s: State, id: string) {
    id !in s.db.tokens && forall t | t in s.tasks :: !HoldsTokenOf(s.tasks[t], id)
  }

  predicate ConsentLands(s: State, e: Event, id: string) {
    e.Act? && e.task in s.tasks && s.tasks[e.task].ConsentWrite? && s.tasks[e.task].account.id == id
  }

  predicate NoConsentLands(s: State, es: seq<Event>, id: string)
    requires IsRun(s, es)
  {
    es == [] || (NoConsentLands(s, es[..|es| - 1], id) && !ConsentLands(Run(s, es[..|es| - 1]), es[|es| - 1], id))
  }

  lemma TakeKeepsQuiet(s: State, t: TaskId, p: Phase, c: Choice, id: string)
    requires Quiet(s, id) && t in s.tasks && s.tasks[t] == p && CanAct(s, p, c)
    requires p.ConsentWrite? ==> p.account.id != id
    ensures id !in Take(s, t, p, c).db.tokens
    ensures !HoldsTokenOf(Take(s, t, p, c).tasks[t], id)
    ensures Take(s, t, p, c).tasks[t].Got? && Take(s, t, p, c).tasks[t].id == id ==> p == Take(s, t, p, c).tasks[t]
  {
    assert !HoldsTokenOf(p, id);
    TakeStoresNothing(s, t, p, c, id);
  }

  lemma TakeStoresNothing(s: State, t: TaskId, p: Phase, c: Choice, id: string)
    requires CanAct(s, p, c) && !HoldsTokenOf(p, id) && (p.ConsentWrite? ==> p.account.id != id) && id !in s.db.tokens
    ensures id !in Take(s, t, p, c).db.tokens
  {
  }

  /** Callers that got a token for this account got it before. */
  predicate NobodyNewGot(s: State, s': State, id: string) {
    forall t | t in s'.tasks && s'.tasks[t].Got? && s'.tasks[t].id == id :: t in s.tasks && s.tasks[t] == s'.tasks[t]
  }

  /**
   * From a quiet state, until a consent lands on the account, every run leaves it without a
   * token, every `get_access_token` for it fails, and `refresh_stale` never selects it.
   */
  lemma {:induction false} StaysTokenless(s: State, es: seq<Event>, id: string)
    requires Quiet(s, id) && IsRun(s, es) && NoConsentLands(s, es, id)
    ensures var s' := Run(s, es);
            Quiet(s', id) && NobodyNewGot(s, s', id) && forall cutoff :: id !in InactiveIds(s'.db, cutoff)
  {
    if es != [] {
      var front, e := es[..|es| - 1], es[|es| - 1];
      StaysTokenless(s, front, id);
      var m := Run(s, front);
      if e.Act? {
        OnlyItsTaskMoves(m, e.task, m.tasks[e.task], e.choice);
        TakeKeepsQuiet(m, e.task, m.tasks[e.task], e.choice, id);
      }
    }
  }

  lemma OneMoreWithoutConsent(s: State, es: seq<Event>, e: Event, id: string)
    requires IsRun(s, es) && Enabled(Run(s, es), e) && NoConsentLands(s, es, id) && !ConsentLands(Run(s, es), e, id)
    ensures IsRun(s, es + [e]) && Run(s, es + [e]) == Apply(Run(s, es), e) && NoConsentLands(s, es + [e], id)
  {
    OneMore(s, es, e);
    assert (es + [e])[..|es + [e]| - 1] == es;
  }

  lemma HeldTokenLands(s: State, t: TaskId, id: string)
    requires t in s.tasks && HoldsTokenOf(s.tasks[t], id) && !s.tasks[t].Exchange? && id in s.db.accounts
    ensures Enabled(s, Act(t, Nothing)) && !ConsentLands(s, Act(t, Nothing), id)
    ensures id in Apply(s, Act(t, Nothing)).db.tokens && Apply(s, Act(t, Nothing)).db.accounts == s.db.accounts
    ensures OthersRest(s, Apply(s, Act(t, Nothing)), t)
  {
  }

  /** No task but this one moved. */
  predicate OthersRest(s: State, s': State, t: TaskId) {
    forall u | u in s.tasks && u != t :: u in s'.tasks && s'.tasks[u] == s.tasks[u]
  }

  lemma HolderExchanges(s: State, t: TaskId, id: string) returns (c: Choice)
    requires Custody(s) && t in s.tasks && HoldsTokenOf(s.tasks[t], id) && s.tasks[t].Exchange?
    ensures Enabled(s, Act(t, c)) && !ConsentLands(s, Act(t, c), id)
    ensures var s' := Apply(s, Act(t, c));
            && s'.db == s.db && t in s'.tasks && s'.tasks[t].RefreshWrite? && HoldsTokenOf(s'.tasks[t], id)
            && OthersRest(s, s', t)
  {
    var current := s.tasks[t].current;
    assert PhaseOk(s, s.tasks[t]);
    var access := UnusedSecret(s.provider.accessOf.Keys);
    c := Answer(Granted(Grant(access, None, None, None)), s.provider.refreshOf[current.refresh]);
  }

  /** A task that still holds a token of a tokenless account, disconnected or not, can bring it back by itself. */
  lemma HolderCanStore(s: State, t: TaskId, id: string) returns (es: seq<Event>)
    requires Custody(s) && t in s.tasks && HoldsTokenOf(s.tasks[t], id)
    requires id in s.db.accounts && id !in s.db.tokens
    ensures IsRun(s, es) && NoConsentLands(s, es, id) && id in Run(s, es).db.tokens
    ensures Run(s, es).db.accounts == s.db.accounts && OthersRest(s, Run(s, es), t)
    ensures forall e | e in es :: e.Act? && e.task == t
  {
    es := [];
    var m := s;
    if s.tasks[t].Exchange? {
      var c := HolderExchanges(s, t, id);
      OneMoreWithoutConsent(s, [], Act(t, c), id);
      es := [] + [Act(t, c)];
      m := Apply(s, Act(t, c));
    }
    HeldTokenLands(m, t, id);
    OneMoreWithoutConsent(s, es, Act(t, Nothing), id);
    es := es + [Act(t, Nothing)];
  }

  /**
   * Exactly when does a tokenless account stay so whatever is scheduled? When nothing in
   * flight holds a token of it: `disconnect` alone does not make sure of that.
   */
  lemma StaysTokenlessIffQuiet(s: State, id: string)
    requires Custody(s) && id in s.db.accounts && id !in s.db.tokens
    ensures (forall es | IsRun(s, es) && NoConsentLands(s, es, id) :: id !in Run(s, es).db.tokens) <==> Quiet(s, id)
  {
    if Quiet(s, id) {
      forall es | IsRun(s, es) && NoConsentLands(s, es, id) ensures id !in Run(s, es).db.tokens {
        StaysTokenless(s, es, id);
      }
    } else {
      var t :| t in s.tasks && HoldsTokenOf(s.tasks[t], id);
      var es := HolderCanStore(s, t, id);
    }
  }

  // ---- Removal ----------------------------------------------------------------------

  predicate Creates(s: State, e: Event, id: string) {
    e.Act? && e.task in s.tasks && s.tasks[e.task].CreateRow? && s.tasks[e.task].account.id == id
  }

  predicate NeverCreated(s: State, es: seq<Event>, id: string)
    requires IsRun(s, es)
  {
    es == [] || (NeverCreated(s, es[..|es| - 1], id) && !Creates(Run(s, es[..|es| - 1]), es[|es| - 1], id))
  }

  /** Anywhere in `refresh_account`. */
  predicate Refreshing(p: Phase) {
    p.LockEntry? || p.LockWait? || p.RefreshRead? || p.Exchange? || p.RefreshWrite? || p.Unlock?
  }

  /** A refresh of a vanished account, wherever it stands, on its way to an error. */
  predicate Doomed(p: Phase, id: string) {
    || p.Failed?
    || (Refreshing(p) && p.id == id && !p.after.Next? && (p.Unlock? ==> !p.succeeded))
  }

  /** While the account is absent, a refresh of it, a batch's included, changes neither table. */
  lemma RefreshLeavesTables(s: State, t: TaskId, p: Phase, c: Choice, id: string)
    requires Consistent(s.db) && Refreshing(p) && p.id == id && id !in s.db.accounts && CanAct(s, p, c)
    ensures Take(s, t, p, c).db == s.db
  {
  }

  lemma DoomedStep(s: State, t: TaskId, p: Phase, c: Choice, id: string)
    requires Consistent(s.db) && Doomed(p, id) && id !in s.db.accounts && CanAct(s, p, c)
    ensures Doomed(Take(s, t, p, c).tasks[t], id)
  {
  }

  lemma AbsentStays(s: State, t: TaskId, p: Phase, c: Choice, id: string)
    requires id !in s.db.accounts && CanAct(s, p, c) && (p.CreateRow? ==> p.account.id != id)
    ensures id !in Take(s, t, p, c).db.accounts
  {
  }

  predicate IsRefreshOf(s: State, e: Event, id: string) {
    e.Act? && e.task in s.tasks && Refreshing(s.tasks[e.task]) && s.tasks[e.task].id == id
  }

  /** No step of a refresh of this account changed a table, at any moment of the run. */
  predicate RefreshesLeaveTables(s: State, es: seq<Event>, id: string)
    requires IsRun(s, es)
  {
    es == [] ||
    (var m, e := Run(s, es[..|es| - 1]), es[|es| - 1];
     && RefreshesLeaveTables(s, es[..|es| - 1], id)
     && (IsRefreshOf(m, e, id) ==> Run(s, es).db == m.db))
  }

  /**
   * A refresh in flight when its account is removed, waiting for the lock or further on, ends
   * in an error and no step of it changes a table, unless a consent re-creates the row; until
   * then no schedule stores anything for that account.
   */
  lemma {:induction false} RefreshOfRemovedAccountFails(s: State, es: seq<Event>, t: TaskId, id: string)
    requires Custody(s) && IsRun(s, es) && NeverCreated(s, es, id)
    requires id !in s.db.accounts && t in s.tasks && Doomed(s.tasks[t], id)
    ensures RefreshesLeaveTables(s, es, id)
    ensures var s' := Run(s, es);
            && id !in s'.db.accounts && id !in s'.db.tokens
            && t in s'.tasks && Doomed(s'.tasks[t], id) && (IsDone(s'.tasks[t]) ==> s'.tasks[t].Failed?)
  {
    RunKeepsCustody(s, es);
    if es != [] {
      var front, e := es[..|es| - 1], es[|es| - 1];
      RefreshOfRemovedAccountFails(s, front, t, id);
      RunKeepsCustody(s, front);
      if e.Act? {
        RemovedStep(Run(s, front), e, t, id);
      }
    }
  }

  lemma RemovedStep(s: State, e: Event, t: TaskId, id: string)
    requires Consistent(s.db) && e.Act? && Enabled(s, e) && !Creates(s, e, id)
    requires id !in s.db.accounts && t in s.tasks && Doomed(s.tasks[t], id)
    ensures id !in Apply(s, e).db.accounts && t in Apply(s, e).tasks && Doomed(Apply(s, e).tasks[t], id)
    ensures IsRefreshOf(s, e, id) ==> Apply(s, e).db == s.db
  {
    OnlyItsTaskMoves(s, e.task, s.tasks[e.task], e.choice);
    AbsentStays(s, e.task, s.tasks[e.task], e.choice, id);
    if IsRefreshOf(s, e, id) {
      RefreshLeavesTables(s, e.task, s.tasks[e.task], e.choice, id);
    }
    if e.task == t {
      DoomedStep(s, t, s.tasks[t], e.choice, id);
    }
  }
}
