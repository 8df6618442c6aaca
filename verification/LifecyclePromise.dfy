/**
 * "Disconnected accounts are kept with no token" (`README.md:263`): not so after a re-consent,
 * which never writes the status back (`src/auth/token.rs:109-115`, `139-142`), nor after a
 * disconnect that did not wait for the refreshes in flight (`src/auth/token.rs:236-240`). When
 * exactly it is so.
 */
module LifecyclePromise {
  import opened Tables
  import opened Lifecycle
  import opened LifecycleCustody
  import opened LifecycleDisconnect

  predicate DisconnectedTokenless(s: State) {
    forall id | id in s.db.accounts && s.db.accounts[id].status == Disconnected :: id !in s.db.tokens
  }

  // ---- What a disconnected row is ---------------------------------------------------

  predicate Marks(s: State, e: Event, id: string) {
    && e.Act? && e.task in s.tasks && s.tasks[e.task].MarkDisconnected? && s.tasks[e.task].id == id
    && Owns(s.db, s.tasks[e.task].tenant, id)
  }

  predicate Removes(s: State, e: Event, id: string) {
    && e.Act? && e.task in s.tasks && s.tasks[e.task].RemoveRow? && s.tasks[e.task].id == id
    && Owns(s.db, s.tasks[e.task].tenant, id)
  }

  /** A disconnect marked the row, and nobody removed it since. */
  predicate MarkedSince(s: State, es: seq<Event>, id: string)
    requires IsRun(s, es)
  {
    es != [] &&
    (var m, e := Run(s, es[..|es| - 1]), es[|es| - 1];
     Marks(m, e, id) || (MarkedSince(s, es[..|es| - 1], id) && !Removes(m, e, id)))
  }

  predicate IsDisconnected(s: State, id: string) {
    id in s.db.accounts && s.db.accounts[id].status == Disconnected
  }

  /** Consents insert active rows only. */
  predicate DraftsAreActive(s: State) {
    forall t | t in s.tasks && (s.tasks[t].CheckRow? || s.tasks[t].CreateRow?) :: s.tasks[t].account.status == Active
  }

  lemma DraftsStayActive(s: State, t: TaskId, p: Phase, c: Choice)
    requires CanAct(s, p, c) && (p.CheckRow? || p.CreateRow? ==> p.account.status == Active)
    ensures var p' := Take(s, t, p, c).tasks[t]; p'.CheckRow? || p'.CreateRow? ==> p'.account.status == Active
  {
  }

  lemma StatusChangesOnlySo(s: State, t: TaskId, c: Choice, id: string)
    requires Enabled(s, Act(t, c)) && DraftsAreActive(s)
    ensures var e := Act(t, c);
            IsDisconnected(Apply(s, e), id) <==> Marks(s, e, id) || (IsDisconnected(s, id) && !Removes(s, e, id))
  {
  }

  /** Consents included, nothing but removal ends a disconnected status, and nothing but a disconnect begins it. */
  lemma {:induction false} DisconnectedIffMarkedSince(es: seq<Event>, id: string)
    requires IsRun(INIT, es)
    ensures DraftsAreActive(Run(INIT, es))
    ensures IsDisconnected(Run(INIT, es), id) <==> MarkedSince(INIT, es, id)
  {
    if es != [] {
      var front, e := es[..|es| - 1], es[|es| - 1];
      DisconnectedIffMarkedSince(front, id);
      var m := Run(INIT, front);
      if e.Act? {
        OnlyItsTaskMoves(m, e.task, m.tasks[e.task], e.choice);
        DraftsStayActive(m, e.task, m.tasks[e.task], e.choice);
        StatusChangesOnlySo(m, e.task, e.choice, id);
      }
    }
  }

  /** No step other than removal ends a disconnected status, so no batch ever refreshes the account. */
  lemma DisconnectionIsFinal(s: State, e: Event, id: string)
    requires Enabled(s, e) && DraftsAreActive(s) && IsDisconnected(s, id)
    ensures Removes(s, e, id) || (IsDisconnected(Apply(s, e), id) && id !in ActiveIds(Apply(s, e).db))
  {
    if e.Act? {
      StatusChangesOnlySo(s, e.task, e.choice, id);
    }
  }

  // ---- When the promise is safe -----------------------------------------------------

  predicate WillMark(s: State, p: Phase, id: string) {
    p.MarkDisconnected? && p.id == id && Owns(s.db, p.tenant, id)
  }

  /** Disconnected, or about to be: a disconnect has dropped its token already. */
  predicate Settling(s: State, id: string) {
    IsDisconnected(s, id) || exists t :: t in s.tasks && WillMark(s, s.tasks[t], id)
  }

  /** No such account has a token or one in flight. */
  predicate Safe(s: State) {
    forall id | id in s.db.accounts && Settling(s, id) :: Quiet(s, id)
  }

  predicate InFlight(s: State, id: string) {
    exists t :: t in s.tasks && HoldsTokenOf(s.tasks[t], id)
  }

  /** A disconnect drops the token while a cache hit or a refresh still carries it. */
  predicate HastyDrop(s: State, p: Phase) {
    p.DropToken? && Owns(s.db, p.tenant, p.id) && InFlight(s, p.id)
  }

  /** A consent lands on an account that is disconnected or about to be. */
  predicate Reconnects(s: State, p: Phase) {
    p.ConsentWrite? && p.account.id in s.db.accounts && Settling(s, p.account.id)
  }

  /** A consent re-creates a removed row before a disconnect marks it and a token in flight lands. */
  predicate Revives(s: State, p: Phase) {
    && p.CreateRow? && CanCreate(s.db, p.account) && InFlight(s, p.account.id)
    && exists t :: t in s.tasks && s.tasks[t].MarkDisconnected? && s.tasks[t].id == p.account.id
                   && s.tasks[t].tenant == p.account.tenant
  }

  predicate Disturbs(s: State, e: Event) {
    && e.Act? && e.task in s.tasks
    && var p := s.tasks[e.task]; HastyDrop(s, p) || Reconnects(s, p) || Revives(s, p)
  }

  predicate Undisturbed(s: State, es: seq<Event>)
    requires IsRun(s, es)
  {
    es == [] || (Undisturbed(s, es[..|es| - 1]) && !Disturbs(Run(s, es[..|es| - 1]), es[|es| - 1]))
  }

  /** Other steps make no row settle that did not before. */
  lemma SettlesOnlySo(s: State, t: TaskId, p: Phase, c: Choice, id: string)
    requires CanAct(s, p, c) && t in s.tasks && s.tasks[t] == p && !p.DropToken? && !p.CreateRow?
    requires id in Take(s, t, p, c).db.accounts && Settling(Take(s, t, p, c), id)
    ensures id in s.db.accounts && Settling(s, id)
  {
    var s' := Take(s, t, p, c);
    OnlyItsTaskMoves(s, t, p, c);
    RowsKeepTenants(s, t, p, c);
    if p.MarkDisconnected? && p.id == id && Owns(s.db, p.tenant, id) {
      assert WillMark(s, s.tasks[t], id);
    } else if IsDisconnected(s', id) {
      OnlyMarksDisconnect(s, t, p, c, id);
    } else {
      var u :| u in s'.tasks && WillMark(s', s'.tasks[u], id);
      OnlyDropsLeadToMarks(s, t, p, c);
      assert u != t && WillMark(s, s.tasks[u], id);
    }
  }

  lemma RowsKeepTenants(s: State, t: TaskId, p: Phase, c: Choice)
    requires CanAct(s, p, c) && !p.CreateRow?
    ensures forall x | x in Take(s, t, p, c).db.accounts ::
              x in s.db.accounts && Take(s, t, p, c).db.accounts[x].tenant == s.db.accounts[x].tenant
  {
  }

  lemma OnlyMarksDisconnect(s: State, t: TaskId, p: Phase, c: Choice, id: string)
    requires CanAct(s, p, c) && !p.CreateRow? && IsDisconnected(Take(s, t, p, c), id)
    requires !(p.MarkDisconnected? && p.id == id && Owns(s.db, p.tenant, id))
    ensures IsDisconnected(s, id)
  {
  }

  lemma OnlyDropsLeadToMarks(s: State, t: TaskId, p: Phase, c: Choice)
    requires CanAct(s, p, c)
    ensures Take(s, t, p, c).tasks[t].MarkDisconnected? ==> p.DropToken?
  {
  }

  /** A quiet account stays so in a step that is no consent for it. */
  lemma StaysQuiet(s: State, t: TaskId, p: Phase, c: Choice, id: string)
    requires Quiet(s, id) && t in s.tasks && s.tasks[t] == p && CanAct(s, p, c)
    requires p.ConsentWrite? ==> p.account.id != id
    ensures Quiet(Take(s, t, p, c), id)
  {
    OnlyItsTaskMoves(s, t, p, c);
    TakeKeepsQuiet(s, t, p, c, id);
  }

  lemma DropSettles(s: State, t: TaskId, p: Phase, c: Choice)
    requires Safe(s) && t in s.tasks && s.tasks[t] == p && p.DropToken? && CanAct(s, p, c)
    ensures Safe(Take(s, t, p, c)) <==> !HastyDrop(s, p)
  {
    var s' := Goto(s.(db := Drop(s.db, p.id)), t, MarkDisconnected(p.tenant, p.id));
    assert Take(s, t, p, c) == s';
    if HastyDrop(s, p) {
      var u :| u in s.tasks && HoldsTokenOf(s.tasks[u], p.id);
      assert u != t && s'.tasks[u] == s.tasks[u];
      assert WillMark(s', s'.tasks[t], p.id) && Settling(s', p.id) && !Quiet(s', p.id);
    } else {
      forall id | id in s'.db.accounts && Settling(s', id) ensures Quiet(s', id) {
        if Settling(s, id) {
          StaysQuiet(s, t, p, c, id);
        } else {
          var u :| u in s'.tasks && WillMark(s', s'.tasks[u], id);
          assert u != t ==> WillMark(s, s.tasks[u], id);
        }
      }
    }
  }

  lemma InsertSettles(s: State, t: TaskId, p: Phase, c: Choice)
    requires Consistent(s.db) && DraftsAreActive(s) && Safe(s)
    requires t in s.tasks && s.tasks[t] == p && p.CreateRow? && CanAct(s, p, c)
    ensures Safe(Take(s, t, p, c)) <==> !Revives(s, p)
  {
    var s', x := Take(s, t, p, c), p.account.id;
    OnlyItsTaskMoves(s, t, p, c);
    forall id | id in s.db.accounts ensures Settling(s', id) <==> Settling(s, id) {
      InsertElsewhere(s, t, p, c, id);
    }
    forall id | id in s.db.accounts && Settling(s, id) ensures Quiet(s', id) {
      StaysQuiet(s, t, p, c, id);
    }
    if CanCreate(s.db, p.account) {
      InsertHere(s, t, p, c);
    } else {
      assert s'.db == s.db;
    }
  }

  lemma InsertElsewhere(s: State, t: TaskId, p: Phase, c: Choice, id: string)
    requires t in s.tasks && s.tasks[t] == p && p.CreateRow? && CanAct(s, p, c) && id in s.db.accounts
    ensures Settling(Take(s, t, p, c), id) <==> Settling(s, id)
  {
    var s' := Take(s, t, p, c);
    OnlyItsTaskMoves(s, t, p, c);
    if u :| u in s.tasks && WillMark(s, s.tasks[u], id) {
      assert WillMark(s', s'.tasks[u], id);
    }
    if u :| u in s'.tasks && WillMark(s', s'.tasks[u], id) {
      assert u != t && WillMark(s, s.tasks[u], id);
    }
  }

  /** The new row settles if a disconnect will mark it, and is quiet if nothing of it is in flight. */
  lemma InsertHere(s: State, t: TaskId, p: Phase, c: Choice)
    requires Consistent(s.db) && DraftsAreActive(s)
    requires t in s.tasks && s.tasks[t] == p && p.CreateRow? && CanAct(s, p, c) && CanCreate(s.db, p.account)
    ensures var s', x := Take(s, t, p, c), p.account.id;
            && s'.db.accounts.Keys == s.db.accounts.Keys + {x}
            && (Settling(s', x) && !Quiet(s', x) <==> Revives(s, p))
  {
    var s', x := Take(s, t, p, c), p.account.id;
    OnlyItsTaskMoves(s, t, p, c);
    assert s'.tasks[t] == ConsentWrite(p.account, p.token) && s'.db == Create(s.db, p.account);
    assert x !in s'.db.tokens && !IsDisconnected(s', x);
    if Revives(s, p) {
      var u :| u in s.tasks && s.tasks[u].MarkDisconnected? && s.tasks[u].id == x
               && s.tasks[u].tenant == p.account.tenant;
      assert WillMark(s', s'.tasks[u], x);
      var h :| h in s.tasks && HoldsTokenOf(s.tasks[h], x);
      assert HoldsTokenOf(s'.tasks[h], x);
    }
    if Settling(s', x) && !Quiet(s', x) {
      var u :| u in s'.tasks && WillMark(s', s'.tasks[u], x);
      var h :| h in s'.tasks && HoldsTokenOf(s'.tasks[h], x);
      assert u != t && h != t && s.tasks[u] == s'.tasks[u] && s.tasks[h] == s'.tasks[h];
    }
  }

  lemma ConsentSettles(s: State, t: TaskId, p: Phase, c: Choice)
    requires Reconnects(s, p) && t in s.tasks && s.tasks[t] == p && CanAct(s, p, c)
    ensures !Safe(Take(s, t, p, c))
  {
    var s', id := Take(s, t, p, c), p.account.id;
    OnlyItsTaskMoves(s, t, p, c);
    assert s'.db == Upsert(s.db, id, p.token) && id in s'.db.tokens;
    if !IsDisconnected(s, id) {
      var u :| u in s.tasks && WillMark(s, s.tasks[u], id);
      assert WillMark(s', s'.tasks[u], id);
    }
    assert Settling(s', id) && !Quiet(s', id);
  }

  lemma OthersSettleNothing(s: State, t: TaskId, p: Phase, c: Choice)
    requires Safe(s) && t in s.tasks && s.tasks[t] == p && CanAct(s, p, c)
    requires !p.DropToken? && !p.CreateRow? && !Reconnects(s, p)
    ensures Safe(Take(s, t, p, c))
  {
    var s' := Take(s, t, p, c);
    forall id | id in s'.db.accounts && Settling(s', id) ensures Quiet(s', id) {
      SettlesOnlySo(s, t, p, c, id);
      StaysQuiet(s, t, p, c, id);
    }
  }

  /** One step keeps every disconnect safe exactly when it is none of these three. */
  lemma StepKeepsSafeIff(s: State, e: Event)
    requires Consistent(s.db) && DraftsAreActive(s) && Safe(s) && Enabled(s, e)
    ensures Safe(Apply(s, e)) <==> !Disturbs(s, e)
  {
    match e
    case Begin(t, p) =>
      var s' := Apply(s, e);
      forall id | id in s'.db.accounts && Settling(s', id) ensures Quiet(s', id) {
        if !IsDisconnected(s', id) {
          var u :| u in s'.tasks && WillMark(s', s'.tasks[u], id);
          assert u != t && WillMark(s, s.tasks[u], id);
        }
      }
    case Wait(_) =>
    case Act(t, c) =>
      var p := s.tasks[t];
      if p.DropToken? {
        DropSettles(s, t, p, c);
      } else if p.CreateRow? {
        InsertSettles(s, t, p, c);
      } else if Reconnects(s, p) {
        ConsentSettles(s, t, p, c);
      } else {
        OthersSettleNothing(s, t, p, c);
      }
  }

  lemma {:induction false} SafeWhileUndisturbed(s: State, es: seq<Event>)
    requires Custody(s) && DraftsAreActive(s) && Safe(s) && IsRun(s, es) && Undisturbed(s, es)
    ensures Safe(Run(s, es)) && DraftsAreActive(Run(s, es))
  {
    if es != [] {
      var front, e := es[..|es| - 1], es[|es| - 1];
      SafeWhileUndisturbed(s, front);
      RunKeepsCustody(s, front);
      var m := Run(s, front);
      StepKeepsSafeIff(m, e);
      if e.Act? {
        OnlyItsTaskMoves(m, e.task, m.tasks[e.task], e.choice);
        DraftsStayActive(m, e.task, m.tasks[e.task], e.choice);
      }
    }
  }

  lemma SafeKeepsPromise(s: State)
    requires Safe(s)
    ensures DisconnectedTokenless(s)
  {
    forall id | IsDisconnected(s, id) ensures id !in s.db.tokens {
      assert Settling(s, id);
    }
  }

  // ---- Whole runs -------------------------------------------------------------------

  predicate PromiseThroughout(s: State, es: seq<Event>)
    requires IsRun(s, es)
  {
    DisconnectedTokenless(Run(s, es)) && (es == [] || PromiseThroughout(s, es[..|es| - 1]))
  }

  predicate SafeThroughout(s: State, es: seq<Event>)
    requires IsRun(s, es)
  {
    Safe(Run(s, es)) && (es == [] || SafeThroughout(s, es[..|es| - 1]))
  }

  /**
   * On the schedule: in every run in which each disconnect drops its token with nothing of the
   * account in flight, and no consent reaches the account until its row is removed, a
   * disconnected account has no token at any moment; and of all runs exactly these keep every
   * disconnect safe throughout.
   */
  lemma {:induction false} PromiseHoldsIfUndisturbed(es: seq<Event>)
    requires IsRun(INIT, es)
    ensures SafeThroughout(INIT, es) <==> Undisturbed(INIT, es)
    ensures Undisturbed(INIT, es) ==> PromiseThroughout(INIT, es)
  {
    if es != [] {
      var front := es[..|es| - 1];
      PromiseHoldsIfUndisturbed(front);
      SchemaHoldsInEveryRun(front);
      DisconnectedIffMarkedSince(front, "");
      if SafeThroughout(INIT, front) {
        StepKeepsSafeIff(Run(INIT, front), es[|es| - 1]);
      }
    }
    if Undisturbed(INIT, es) {
      SafeKeepsPromise(Run(INIT, es));
    }
  }

  // ---- Every condition is needed ----------------------------------------------------

  lemma OneMoreUndisturbed(s: State, es: seq<Event>, e: Event)
    requires IsRun(s, es) && Undisturbed(s, es) && Enabled(Run(s, es), e) && !Disturbs(Run(s, es), e)
    ensures IsRun(s, es + [e]) && Undisturbed(s, es + [e]) && Run(s, es + [e]) == Apply(Run(s, es), e)
  {
    OneMore(s, es, e);
    assert (es + [e])[..|es + [e]| - 1] == es;
  }

  /** Steps of a task that carries a token disturb nothing by themselves. */
  lemma {:induction false} HolderDisturbsNothing(s: State, es: seq<Event>, t: TaskId)
    requires IsRun(s, es) && t in s.tasks && (forall e | e in es :: e.Act? && e.task == t)
    requires s.tasks[t].BumpWrite? || s.tasks[t].Exchange? || s.tasks[t].RefreshWrite?
    ensures Undisturbed(s, es) && t in Run(s, es).tasks && NeverConsents(Run(s, es).tasks[t])
  {
    if es != [] {
      var front, e := es[..|es| - 1], es[|es| - 1];
      assert forall x | x in front :: x in es;
      assert e in es;
      HolderDisturbsNothing(s, front, t);
      NeverConsentsStays(Run(s, front), t, Run(s, front).tasks[t], e.choice);
    }
  }

  predicate NeverConsents(p: Phase) {
    Refreshing(p) || p.BumpWrite? || p.GetReadBack? || IsDone(p)
  }

  lemma NeverConsentsStays(s: State, t: TaskId, p: Phase, c: Choice)
    requires NeverConsents(p) && CanAct(s, p, c)
    ensures t in Take(s, t, p, c).tasks && NeverConsents(Take(s, t, p, c).tasks[t])
  {
  }

  /** A pending mark of a row that has a token breaks the promise. */
  lemma MarkBreaks(s: State, es: seq<Event>, t: TaskId, id: string) returns (fs: seq<Event>)
    requires IsRun(s, es) && Undisturbed(s, es)
    requires var m := Run(s, es); id in m.db.tokens && t in m.tasks && WillMark(m, m.tasks[t], id)
    ensures IsRun(s, fs) && Undisturbed(s, fs) && !DisconnectedTokenless(Run(s, fs))
  {
    var m := Run(s, es);
    OneMoreUndisturbed(s, es, Act(t, Nothing));
    fs := es + [Act(t, Nothing)];
    var s' := Apply(m, Act(t, Nothing));
    assert s'.db == SetStatus(m.db, m.tasks[t].tenant, id, Disconnected, m.now) && id in s'.db.tokens;
  }

  /** With the token there, the row is disconnected or will be marked. */
  lemma StoredCanBreak(s: State, es: seq<Event>, id: string) returns (fs: seq<Event>)
    requires IsRun(s, es) && Undisturbed(s, es)
    requires id in Run(s, es).db.accounts && id in Run(s, es).db.tokens && Settling(Run(s, es), id)
    ensures IsRun(s, fs) && Undisturbed(s, fs) && !DisconnectedTokenless(Run(s, fs))
  {
    var m := Run(s, es);
    if IsDisconnected(m, id) {
      fs := es;
    } else {
      var t :| t in m.tasks && WillMark(m, m.tasks[t], id);
      fs := MarkBreaks(s, es, t, id);
    }
  }

  /** Without it, the task that carries it stores it first. */
  lemma CarriedLands(s: State, id: string) returns (es: seq<Event>)
    requires Custody(s) && id in s.db.accounts && id !in s.db.tokens && Settling(s, id) && InFlight(s, id)
    ensures IsRun(s, es) && Undisturbed(s, es)
    ensures id in Run(s, es).db.accounts && id in Run(s, es).db.tokens && Settling(Run(s, es), id)
  {
    var h :| h in s.tasks && HoldsTokenOf(s.tasks[h], id);
    es := HolderCanStore(s, h, id);
    HolderDisturbsNothing(s, es, h);
    var m := Run(s, es);
    if !IsDisconnected(s, id) {
      var t :| t in s.tasks && WillMark(s, s.tasks[t], id);
      assert WillMark(m, m.tasks[t], id);
    }
  }

  /** From an unsafe state some undisturbed continuation breaks the promise. */
  lemma UnsafeCanBreak(s: State, id: string) returns (es: seq<Event>)
    requires Custody(s) && id in s.db.accounts && Settling(s, id) && !Quiet(s, id)
    ensures IsRun(s, es) && Undisturbed(s, es) && !DisconnectedTokenless(Run(s, es))
  {
    es := [];
    if id !in s.db.tokens {
      es := CarriedLands(s, id);
    }
    es := StoredCanBreak(s, es, id);
  }

  /**
   * Exactly when is the promise kept whatever undisturbed schedule follows? When no account
   * that is disconnected, or about to be, has a token or one in flight.
   */
  lemma PromiseKeptIffSafe(s: State)
    requires Custody(s) && DraftsAreActive(s)
    ensures (forall es | IsRun(s, es) && Undisturbed(s, es) :: DisconnectedTokenless(Run(s, es))) <==> Safe(s)
  {
    if Safe(s) {
      forall es | IsRun(s, es) && Undisturbed(s, es) ensures DisconnectedTokenless(Run(s, es)) {
        SafeWhileUndisturbed(s, es);
        SafeKeepsPromise(Run(s, es));
      }
    } else {
      var id :| id in s.db.accounts && Settling(s, id) && !Quiet(s, id);
      var es := UnsafeCanBreak(s, id);
    }
  }
}
