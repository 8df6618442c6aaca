/**
 * What the schema does not promise about accounts: uniqueness up to ASCII case, which rests on
 * the lookup before the insert (`src/auth/token.rs:105-141`, `src/storage/accounts.rs:101-114`).
 */
module LifecycleAccounts {
  import opened Prelude
  import opened Tables
  import opened Lifecycle
  import opened LifecycleCustody

  predicate SameMailbox(a: Account, b: Account) {
    a.tenant == b.tenant && Lower(a.email) == Lower(b.email)
  }

  /** (tenant, lower-cased email) is unique. */
  predicate FoldUnique(s: State) {
    forall x, y | x in s.db.accounts && y in s.db.accounts && x != y :: !SameMailbox(s.db.accounts[x], s.db.accounts[y])
  }

  /** An insert that succeeds. */
  predicate Inserts(s: State, e: Event) {
    e.Act? && e.task in s.tasks && s.tasks[e.task].CreateRow? && CanCreate(s.db, s.tasks[e.task].account)
  }

  /** One beside a row for the same mailbox spelled differently. */
  predicate TwinInsert(s: State, e: Event) {
    && Inserts(s, e)
    && exists x :: x in s.db.accounts && SameMailbox(s.db.accounts[x], s.tasks[e.task].account)
  }

  lemma OnlyInsertsAddAccounts(s: State, t: TaskId, p: Phase, c: Choice)
    requires CanAct(s, p, c) && !p.CreateRow?
    ensures var db, db' := s.db, Take(s, t, p, c).db;
            forall x | x in db'.accounts :: x in db.accounts && SameMailbox(db'.accounts[x], db.accounts[x])
  {
  }

  lemma StepKeepsFoldUniqueIff(s: State, e: Event)
    requires Consistent(s.db) && FoldUnique(s) && Enabled(s, e)
    ensures FoldUnique(Apply(s, e)) <==> !TwinInsert(s, e)
  {
    if e.Act? {
      var p := s.tasks[e.task];
      if p.CreateRow? {
        if TwinInsert(s, e) {
          var x :| x in s.db.accounts && SameMailbox(s.db.accounts[x], p.account);
          var s' := Apply(s, e);
          assert x != p.account.id && SameMailbox(s'.db.accounts[x], s'.db.accounts[p.account.id]);
        }
      } else {
        OnlyInsertsAddAccounts(s, e.task, p, e.choice);
      }
    }
  }

  predicate FoldUniqueThroughout(s: State, es: seq<Event>)
    requires IsRun(s, es)
  {
    FoldUnique(Run(s, es)) && (es == [] || FoldUniqueThroughout(s, es[..|es| - 1]))
  }

  // ---- Twin inserts need overlapping consents ---------------------------------------

  predicate PastLookup(p: Phase) {
    p.CheckRow? || p.CreateRow?
  }

  /** Unless another consent inserted meanwhile, the lookup's answer still stands. */
  predicate LookupStands(s: State) {
    forall t, x | t in s.tasks && PastLookup(s.tasks[t]) && t !in s.history.raced && x in s.db.accounts
                  && SameMailbox(s.db.accounts[x], s.tasks[t].account) :: x == s.tasks[t].account.id
  }

  lemma LookupMakesItStand(s: State, t: TaskId, p: Phase, c: Choice)
    requires Consistent(s.db) && FoldUnique(s) && LookupStands(s)
    requires t in s.tasks && s.tasks[t] == p && p.Lookup? && CanAct(s, p, c)
    ensures LookupStands(Take(s, t, p, c))
  {
    var s' := Take(s, t, p, c);
    OnlyItsTaskMoves(s, t, p, c);
    var a := s'.tasks[t].account;
    assert SameMailbox(a, Account(c.id, p.tenant, p.email, None, Active, 0, 0));
    forall x | x in s.db.accounts && SameMailbox(s.db.accounts[x], a) ensures x == a.id {
      assert x in Matches(s.db, p.tenant, p.email) && c.id in Matches(s.db, p.tenant, p.email);
      assert SameMailbox(s.db.accounts[x], s.db.accounts[c.id]);
    }
  }

  lemma IsRaced(s: State, a: Account, u: TaskId)
    requires u in s.tasks && PastLookup(s.tasks[u]) && SameMailbox(s.tasks[u].account, a)
    ensures u in Raced(s, a)
  {
  }

  lemma InsertKeepsLookups(s: State, t: TaskId, p: Phase, c: Choice)
    requires LookupStands(s) && t in s.tasks && s.tasks[t] == p && p.CreateRow? && CanAct(s, p, c)
    ensures LookupStands(Take(s, t, p, c))
  {
    var s' := Take(s, t, p, c);
    OnlyItsTaskMoves(s, t, p, c);
    forall u, x | u in s'.tasks && PastLookup(s'.tasks[u]) && u !in s'.history.raced && x in s'.db.accounts
                  && SameMailbox(s'.db.accounts[x], s'.tasks[u].account)
      ensures x == s'.tasks[u].account.id
    {
      assert u != t && u in s.tasks && s'.tasks[u] == s.tasks[u];
      if SameMailbox(s.tasks[u].account, p.account) {
        IsRaced(s, p.account, u);
      }
    }
  }

  lemma OthersEnterNoLookup(s: State, t: TaskId, p: Phase, c: Choice)
    requires !p.Lookup? && !p.CreateRow? && CanAct(s, p, c)
    ensures var s' := Take(s, t, p, c);
            s'.history.raced == s.history.raced
            && (PastLookup(s'.tasks[t]) ==> PastLookup(p) && s'.tasks[t].account == p.account)
  {
    if !PastLookup(p) {
      OthersStayOutside(s, t, p, c);
    }
  }

  lemma OthersStayOutside(s: State, t: TaskId, p: Phase, c: Choice)
    requires !p.Lookup? && !PastLookup(p) && CanAct(s, p, c)
    ensures !PastLookup(Take(s, t, p, c).tasks[t])
  {
  }

  lemma StepKeepsLookups(s: State, e: Event)
    requires Consistent(s.db) && FoldUnique(s) && LookupStands(s) && Enabled(s, e)
    ensures LookupStands(Apply(s, e))
  {
    if e.Act? {
      var t, p, c := e.task, s.tasks[e.task], e.choice;
      if p.Lookup? {
        LookupMakesItStand(s, t, p, c);
      } else if p.CreateRow? {
        InsertKeepsLookups(s, t, p, c);
      } else {
        OnlyItsTaskMoves(s, t, p, c);
        OthersEnterNoLookup(s, t, p, c);
        OnlyInsertsAddAccounts(s, t, p, c);
        var s' := Take(s, t, p, c);
        assert forall u | u in s'.tasks && u != t :: u in s.tasks && s'.tasks[u] == s.tasks[u];
      }
    }
  }

  lemma {:induction false} LookupsStandWhileUnique(es: seq<Event>)
    requires IsRun(INIT, es) && FoldUniqueThroughout(INIT, es)
    ensures LookupStands(Run(INIT, es))
  {
    if es != [] {
      var front := es[..|es| - 1];
      LookupsStandWhileUnique(front);
      SchemaHoldsInEveryRun(front);
      StepKeepsLookups(Run(INIT, front), es[|es| - 1]);
    }
  }

  /** A consent inserts although, since its lookup, another consent inserted the same mailbox. */
  predicate OverlappingInsert(s: State, e: Event) {
    Inserts(s, e) && e.task in s.history.raced
  }

  /** No consent inserts after another consent inserted the same mailbox since its lookup. */
  predicate NoOverlap(s: State, es: seq<Event>)
    requires IsRun(s, es)
  {
    es == [] || (NoOverlap(s, es[..|es| - 1]) && !OverlappingInsert(Run(s, es[..|es| - 1]), es[|es| - 1]))
  }

  /** In every run whose lookup-to-insert tails do not overlap, mailboxes are unique up to case. */
  lemma {:induction false} FoldUniqueWithoutOverlap(es: seq<Event>)
    requires IsRun(INIT, es) && NoOverlap(INIT, es)
    ensures FoldUniqueThroughout(INIT, es)
  {
    if es != [] {
      var front := es[..|es| - 1];
      FoldUniqueWithoutOverlap(front);
      LookupsStandWhileUnique(front);
      SchemaHoldsInEveryRun(front);
      assert !TwinInsert(Run(INIT, front), es[|es| - 1]);
      StepKeepsFoldUniqueIff(Run(INIT, front), es[|es| - 1]);
    }
  }

  // ---- And overlaps need no more than happening -------------------------------------

  predicate NoRemovals(s: State, es: seq<Event>)
    requires IsRun(s, es)
  {
    es == [] ||
    (var m, e := Run(s, es[..|es| - 1]), es[|es| - 1];
     NoRemovals(s, es[..|es| - 1]) && !(e.Act? && e.task in m.tasks && m.tasks[e.task].RemoveRow?))
  }

  predicate AfterLookup(p: Phase) {
    PastLookup(p) || p.ConsentWrite? || p.Finished? || p.Failed?
  }

  /** Beside every consent overtaken since its lookup stands a row of the same mailbox. */
  predicate RacedBeside(s: State) {
    forall t | t in s.history.raced ::
      && t in s.tasks && AfterLookup(s.tasks[t])
      && (PastLookup(s.tasks[t]) ==> HasRow(s, s.tasks[t].account))
  }

  predicate HasRow(s: State, a: Account) {
    exists x :: x in s.db.accounts && SameMailbox(s.db.accounts[x], a)
  }

  lemma RowsStay(s: State, t: TaskId, p: Phase, c: Choice, a: Account)
    requires CanAct(s, p, c) && !p.RemoveRow? && HasRow(s, a)
    ensures HasRow(Take(s, t, p, c), a)
  {
    var x :| x in s.db.accounts && SameMailbox(s.db.accounts[x], a);
    assert x in Take(s, t, p, c).db.accounts && SameMailbox(Take(s, t, p, c).db.accounts[x], a);
  }

  lemma AfterLookupStays(s: State, t: TaskId, p: Phase, c: Choice)
    requires CanAct(s, p, c) && AfterLookup(p)
    ensures var p' := Take(s, t, p, c).tasks[t];
            AfterLookup(p') && (PastLookup(p') ==> PastLookup(p) && p'.account == p.account)
  {
  }

  lemma NewlyRaced(s: State, t: TaskId, p: Phase, c: Choice, u: TaskId)
    requires CanAct(s, p, c) && t in s.tasks && s.tasks[t] == p
    requires u in Take(s, t, p, c).history.raced && u !in s.history.raced
    ensures u != t && u in s.tasks && PastLookup(s.tasks[u]) && HasRow(Take(s, t, p, c), s.tasks[u].account)
  {
    assert p.CreateRow? && CanCreate(s.db, p.account) && u in Raced(s, p.account);
    assert p.account.id in Take(s, t, p, c).db.accounts;
    assert SameMailbox(Take(s, t, p, c).db.accounts[p.account.id], s.tasks[u].account);
  }

  lemma StepKeepsRacedBeside(s: State, t: TaskId, p: Phase, c: Choice)
    requires RacedBeside(s) && t in s.tasks && s.tasks[t] == p && CanAct(s, p, c) && !p.RemoveRow?
    ensures RacedBeside(Take(s, t, p, c))
  {
    var s' := Take(s, t, p, c);
    OnlyItsTaskMoves(s, t, p, c);
    forall u | u in s'.history.raced
      ensures u in s'.tasks && AfterLookup(s'.tasks[u]) && (PastLookup(s'.tasks[u]) ==> HasRow(s', s'.tasks[u].account))
    {
      if u !in s.history.raced {
        NewlyRaced(s, t, p, c, u);
      } else {
        if u == t {
          AfterLookupStays(s, t, p, c);
        }
        if PastLookup(s'.tasks[u]) {
          RowsStay(s, t, p, c, s.tasks[u].account);
        }
      }
    }
  }

  lemma {:induction false} RacedHaveRows(es: seq<Event>)
    requires IsRun(INIT, es) && NoRemovals(INIT, es)
    ensures RacedBeside(Run(INIT, es))
  {
    if es != [] {
      var front, e := es[..|es| - 1], es[|es| - 1];
      RacedHaveRows(front);
      if e.Act? {
        StepKeepsRacedBeside(Run(INIT, front), e.task, Run(INIT, front).tasks[e.task], e.choice);
      }
    }
  }

  /**
   * Of all runs without removals, exactly those in which no consent inserts after another
   * overtook it since its lookup keep mailboxes unique up to ASCII case.
   */
  lemma {:induction false} FoldUniqueIffNoOverlap(es: seq<Event>)
    requires IsRun(INIT, es) && NoRemovals(INIT, es)
    ensures FoldUniqueThroughout(INIT, es) <==> NoOverlap(INIT, es)
  {
    if es != [] {
      var front, e := es[..|es| - 1], es[|es| - 1];
      FoldUniqueIffNoOverlap(front);
      if FoldUniqueThroughout(INIT, front) {
        LookupsStandWhileUnique(front);
        SchemaHoldsInEveryRun(front);
        RacedHaveRows(front);
        var m := Run(INIT, front);
        assert TwinInsert(m, e) <==> OverlappingInsert(m, e);
        StepKeepsFoldUniqueIff(m, e);
      }
    }
  }

  // ---- One account per consent ------------------------------------------------------

  /** Between its flow being taken and its row being there. */
  predicate BeforeRow(p: Phase) {
    p.CodeExchange? || p.Resolve? || p.Lookup? || p.CheckRow? || p.CreateRow?
  }

  function MayStillCreate(s: State): set<TaskId> {
    set t | t in s.tasks && BeforeRow(s.tasks[t])
  }

  /** Consents begun, each after one successful `take`. */
  function ConsentsBegun(es: seq<Event>): nat {
    if es == [] then 0
    else ConsentsBegun(es[..|es| - 1]) + if es[|es| - 1].Begin? && es[|es| - 1].phase.CodeExchange? then 1 else 0
  }

  function AccountsCreated(s: State, es: seq<Event>): nat
    requires IsRun(s, es)
  {
    if es == [] then 0
    else AccountsCreated(s, es[..|es| - 1]) + if Inserts(Run(s, es[..|es| - 1]), es[|es| - 1]) then 1 else 0
  }

  lemma StepSpendsConsent(s: State, e: Event)
    requires Enabled(s, e)
    ensures |MayStillCreate(Apply(s, e))| + (if Inserts(s, e) then 1 else 0)
         <= |MayStillCreate(s)| + if e.Begin? && e.phase.CodeExchange? then 1 else 0
  {
    match e
    case Begin(t, p) => BeginAddsConsent(s, t, p);
    case Wait(until) => assert MayStillCreate(s.(now := until)) == MayStillCreate(s);
    case Act(t, c) => ActSpendsConsent(s, t, c);
  }

  lemma BeginAddsConsent(s: State, t: TaskId, p: Phase)
    requires t !in s.tasks && IsCall(p)
    ensures |MayStillCreate(Goto(s, t, p))| == |MayStillCreate(s)| + if p.CodeExchange? then 1 else 0
  {
    var before, after := MayStillCreate(s), MayStillCreate(Goto(s, t, p));
    assert t !in before && (t in after <==> p.CodeExchange?);
    assert after - {t} == before;
  }

  lemma ActSpendsConsent(s: State, t: TaskId, c: Choice)
    requires Enabled(s, Act(t, c))
    ensures MayStillCreate(Apply(s, Act(t, c))) <= MayStillCreate(s)
    ensures Inserts(s, Act(t, c)) ==> t in MayStillCreate(s) && t !in MayStillCreate(Apply(s, Act(t, c)))
    ensures |MayStillCreate(Apply(s, Act(t, c)))| + (if Inserts(s, Act(t, c)) then 1 else 0) <= |MayStillCreate(s)|
  {
    var before, after := MayStillCreate(s), MayStillCreate(Apply(s, Act(t, c)));
    OnlyItsTaskMoves(s, t, s.tasks[t], c);
    NoWayBack(s, t, s.tasks[t], c);
    assert after <= before;
    if Inserts(s, Act(t, c)) {
      Smaller(after, before - {t});
    } else {
      Smaller(after, before);
    }
  }

  lemma NoWayBack(s: State, t: TaskId, p: Phase, c: Choice)
    requires CanAct(s, p, c)
    ensures BeforeRow(Take(s, t, p, c).tasks[t]) ==> BeforeRow(p)
    ensures p.CreateRow? && CanCreate(s.db, p.account) ==> !BeforeRow(Take(s, t, p, c).tasks[t])
  {
  }

  lemma {:induction false} Smaller<T>(a: set<T>, b: set<T>)
    requires a <= b
    ensures |a| <= |b|
  {
    if a != {} {
      var x :| x in a;
      Smaller(a - {x}, b - {x});
    }
  }

  lemma {:induction false} CreatedOrPending(s: State, es: seq<Event>)
    requires IsRun(s, es)
    ensures AccountsCreated(s, es) + |MayStillCreate(Run(s, es))| <= |MayStillCreate(s)| + ConsentsBegun(es)
  {
    if es != [] {
      CreatedOrPending(s, es[..|es| - 1]);
      StepSpendsConsent(Run(s, es[..|es| - 1]), es[|es| - 1]);
    }
  }

  lemma InsertAddsOneRow(s: State, t: TaskId, c: Choice)
    requires Enabled(s, Act(t, c)) && s.tasks[t].CreateRow?
    ensures var rows, rows' := s.db.accounts.Keys, Apply(s, Act(t, c)).db.accounts.Keys;
            rows' == if Inserts(s, Act(t, c)) then rows + {s.tasks[t].account.id} else rows
  {
  }

  lemma StepAddsOneRow(s: State, e: Event)
    requires Enabled(s, e)
    ensures |Apply(s, e).db.accounts.Keys| <= |s.db.accounts.Keys| + if Inserts(s, e) then 1 else 0
  {
    if e.Act? && s.tasks[e.task].CreateRow? {
      InsertAddsOneRow(s, e.task, e.choice);
    } else {
      if e.Act? {
        OnlyInsertsAddAccounts(s, e.task, s.tasks[e.task], e.choice);
      }
      Smaller(Apply(s, e).db.accounts.Keys, s.db.accounts.Keys);
    }
  }

  lemma {:induction false} RowsAreCreated(s: State, es: seq<Event>)
    requires IsRun(s, es)
    ensures |Run(s, es).db.accounts.Keys| <= |s.db.accounts.Keys| + AccountsCreated(s, es)
  {
    if es != [] {
      RowsAreCreated(s, es[..|es| - 1]);
      StepAddsOneRow(Run(s, es[..|es| - 1]), es[|es| - 1]);
    }
  }

  /** However consents overlap, each creates at most one account: rows <= accounts created <= consents begun. */
  lemma ConsentsBoundAccounts(es: seq<Event>)
    requires IsRun(INIT, es)
    ensures |Run(INIT, es).db.accounts.Keys| <= AccountsCreated(INIT, es) <= ConsentsBegun(es)
  {
    CreatedOrPending(INIT, es);
    RowsAreCreated(INIT, es);
    assert MayStillCreate(INIT) == {};
  }
}
