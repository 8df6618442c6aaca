/**
 * Every task ends: each step moves its task strictly forward, so once no more calls begin only
 * boundedly many steps are left, and a run that cannot go on has finished every task
 * (`src/auth/token.rs:89-240`).
 */
module LifecycleProgress {
  import opened Tables
  import opened TokenRules
  import opened Lifecycle
  import opened LifecycleCustody
  import opened LifecycleChain
  import opened LifecycleDisconnect
  import opened LifecycleAccounts

  // ---- How many steps a task has left -----------------------------------------------

  /** Steps from a batch's next account to its end. */
  function BatchSteps(rest: seq<string>): nat {
    6 * |rest|
  }

  function StepsAfter(after: After): nat {
    match after
    case Return => 0
    case ReadBack => 1
    case Next(rest) => BatchSteps(rest)
  }

  /** At most this many, if a listing finds no more than `rows` accounts. */
  function StepsLeft(p: Phase, rows: nat): nat {
    match p
    case GetRead(_) => 8
    case BumpWrite(_, _) => 1
    case GetReadBack(_) => 1
    case LockEntry(_, after) => 6 + StepsAfter(after)
    case LockWait(_, after) => 5 + StepsAfter(after)
    case RefreshRead(_, after) => 4 + StepsAfter(after)
    case Exchange(_, after, _) => 3 + StepsAfter(after)
    case RefreshWrite(_, after, _, _) => 2 + StepsAfter(after)
    case Unlock(_, after, _) => 1 + StepsAfter(after)
    case ListActive => 1 + 6 * rows
    case ListStale(_) => 1 + 6 * rows
    case CodeExchange(_) => 6
    case Resolve(_, _, _) => 5
    case Lookup(_, _, _, _, _) => 4
    case CheckRow(_, _) => 3
    case CreateRow(_, _) => 2
    case ConsentWrite(_, _) => 1
    case DisconnectGet(_, _) => 3
    case DropToken(_, _) => 2
    case MarkDisconnected(_, _) => 1
    case RemoveGet(_, _) => 3
    case RemoveByEmail(_, _) => 2
    case RemoveRow(_, _) => 1
    case _ => 0
  }

  /** Accounts there are, and those consents under way may still insert. */
  function Rows(s: State): nat {
    |s.db.accounts.Keys| + |MayStillCreate(s)|
  }

  lemma RowsNeverGrow(s: State, e: Event)
    requires Enabled(s, e) && !e.Begin?
    ensures Rows(Apply(s, e)) <= Rows(s)
  {
    StepSpendsConsent(s, e);
    StepAddsOneRow(s, e);
  }

  lemma {:induction false} OrderIsNoLonger(ids: seq<string>, all: set<string>)
    requires IsOrderOf(ids, all)
    ensures |ids| <= |all|
  {
    if ids != [] {
      var front, last := ids[..|ids| - 1], ids[|ids| - 1];
      assert last in ids && last !in front;
      forall id ensures id in front <==> id in all - {last} {
        assert id in front ==> id in ids;
        if id in all - {last} {
          assert id in ids;
          var i :| 0 <= i < |ids| && ids[i] == id;
          assert i < |front| && front[i] == id;
        }
      }
      OrderIsNoLonger(front, all - {last});
    }
  }

  lemma RefreshMovesOn(s: State, t: TaskId, p: Phase, c: Choice, rows: nat)
    requires Refreshing(p) && CanAct(s, p, c)
    ensures StepsLeft(Take(s, t, p, c).tasks[t], rows) < StepsLeft(p, rows)
  {
  }

  lemma ListingMovesOn(s: State, t: TaskId, p: Phase, c: Choice, rows: nat)
    requires Consistent(s.db) && (p.ListActive? || p.ListStale?) && CanAct(s, p, c) && |s.db.accounts.Keys| <= rows
    ensures StepsLeft(Take(s, t, p, c).tasks[t], rows) < StepsLeft(p, rows)
  {
    var all := if p.ListActive? then ActiveIds(s.db) else InactiveIds(s.db, Cutoff(s.now, p.days));
    OrderIsNoLonger(c.ids, all);
    Smaller(all, s.db.accounts.Keys);
  }

  predicate InGet(p: Phase) {
    p.GetRead? || p.BumpWrite? || p.GetReadBack?
  }

  lemma GetMovesOn(s: State, t: TaskId, p: Phase, c: Choice, rows: nat)
    requires InGet(p) && CanAct(s, p, c)
    ensures StepsLeft(Take(s, t, p, c).tasks[t], rows) < StepsLeft(p, rows)
  {
  }

  lemma ProviderMovesOn(s: State, t: TaskId, p: Phase, c: Choice, rows: nat)
    requires (p.CodeExchange? || p.Resolve? || p.Lookup?) && CanAct(s, p, c)
    ensures StepsLeft(Take(s, t, p, c).tasks[t], rows) < StepsLeft(p, rows)
  {
  }

  lemma ConsentMovesOn(s: State, t: TaskId, p: Phase, c: Choice, rows: nat)
    requires InConsent(p) && CanAct(s, p, c)
    ensures StepsLeft(Take(s, t, p, c).tasks[t], rows) < StepsLeft(p, rows)
  {
    if p.CodeExchange? || p.Resolve? || p.Lookup? {
      ProviderMovesOn(s, t, p, c, rows);
    }
  }

  lemma OthersMoveOn(s: State, t: TaskId, p: Phase, c: Choice, rows: nat)
    requires !Refreshing(p) && !p.ListActive? && !p.ListStale? && !InGet(p) && !InConsent(p) && CanAct(s, p, c)
    ensures StepsLeft(Take(s, t, p, c).tasks[t], rows) < StepsLeft(p, rows)
  {
  }

  /** Each step moves its task strictly forward. */
  lemma EachStepMovesOn(s: State, t: TaskId, p: Phase, c: Choice, rows: nat)
    requires Consistent(s.db) && CanAct(s, p, c) && |s.db.accounts.Keys| <= rows
    ensures StepsLeft(Take(s, t, p, c).tasks[t], rows) < StepsLeft(p, rows)
  {
    if Refreshing(p) {
      RefreshMovesOn(s, t, p, c, rows);
    } else if p.ListActive? || p.ListStale? {
      ListingMovesOn(s, t, p, c, rows);
    } else if InGet(p) {
      GetMovesOn(s, t, p, c, rows);
    } else if InConsent(p) {
      ConsentMovesOn(s, t, p, c, rows);
    } else {
      OthersMoveOn(s, t, p, c, rows);
    }
  }

  // ---- All tasks together -----------------------------------------------------------

  /** The steps the tasks numbered below `n` have left. */
  function AllStepsLeft(s: State, n: nat, rows: nat): nat {
    if n == 0 then 0
    else AllStepsLeft(s, n - 1, rows) + if n - 1 in s.tasks then StepsLeft(s.tasks[n - 1], rows) else 0
  }

  lemma {:induction false} OneMoves(s: State, s': State, t: TaskId, n: nat, rows: nat)
    requires t in s.tasks && t in s'.tasks && s'.tasks == s.tasks[t := s'.tasks[t]]
    ensures AllStepsLeft(s', n, rows) ==
              AllStepsLeft(s, n, rows) + if t < n then StepsLeft(s'.tasks[t], rows) - StepsLeft(s.tasks[t], rows) else 0
  {
    if n > 0 {
      OneMoves(s, s', t, n - 1, rows);
    }
  }

  predicate NumberedBelow(s: State, n: nat) {
    forall t | t in s.tasks :: t < n
  }

  predicate NoBegin(es: seq<Event>) {
    forall e | e in es :: !e.Begin?
  }

  function Acts(es: seq<Event>): nat {
    if es == [] then 0 else Acts(es[..|es| - 1]) + if es[|es| - 1].Act? then 1 else 0
  }

  /** Once no more calls begin, the steps left are bounded by what the tasks stand before. */
  lemma {:induction false} StepsAreBounded(s: State, es: seq<Event>, n: nat)
    requires Custody(s) && IsRun(s, es) && NoBegin(es) && NumberedBelow(s, n)
    ensures Rows(Run(s, es)) <= Rows(s) && NumberedBelow(Run(s, es), n)
    ensures Acts(es) + AllStepsLeft(Run(s, es), n, Rows(s)) <= AllStepsLeft(s, n, Rows(s))
  {
    if es != [] {
      var front, e := es[..|es| - 1], es[|es| - 1];
      assert e in es && forall x | x in front :: x in es;
      StepsAreBounded(s, front, n);
      var m := Run(s, front);
      RunKeepsCustody(s, front);
      RowsNeverGrow(m, e);
      if e.Act? {
        OnlyItsTaskMoves(m, e.task, m.tasks[e.task], e.choice);
        EachStepMovesOn(m, e.task, m.tasks[e.task], e.choice, Rows(s));
        OneMoves(m, Apply(m, e), e.task, n, Rows(s));
      } else {
        SameSteps(m, Apply(m, e), n, Rows(s));
      }
    }
  }

  lemma {:induction false} SameSteps(s: State, s': State, n: nat, rows: nat)
    requires s'.tasks == s.tasks
    ensures AllStepsLeft(s', n, rows) == AllStepsLeft(s, n, rows)
  {
    if n > 0 {
      SameSteps(s, s', n - 1, rows);
    }
  }

  // ---- Runs that cannot go on -------------------------------------------------------

  predicate AllDone(s: State) {
    forall t | t in s.tasks :: IsDone(s.tasks[t])
  }

  ghost predicate CannotGoOn(s: State) {
    forall t, c :: !Enabled(s, Act(t, c))
  }

  /** A reachable state in which no task can step is one in which every task is finished. */
  lemma MaximalRunsFinish(es: seq<Event>)
    requires IsRun(INIT, es)
    ensures CannotGoOn(Run(INIT, es)) <==> AllDone(Run(INIT, es))
  {
    var s := Run(INIT, es);
    if !AllDone(s) {
      var t :| t in s.tasks && !IsDone(s.tasks[t]);
      var e := NoDeadlock(es, t);
      assert e == Act(e.task, e.choice);
    }
  }

  /** And every reachable state leads to one, in as many steps as are left. */
  lemma {:induction false} EveryTaskCanFinish(es: seq<Event>, n: nat) returns (fs: seq<Event>)
    requires IsRun(INIT, es) && NumberedBelow(Run(INIT, es), n)
    ensures IsRun(INIT, es + fs) && NoBegin(fs) && AllDone(Run(INIT, es + fs))
    ensures |fs| <= AllStepsLeft(Run(INIT, es), n, Rows(Run(INIT, es)))
    decreases AllStepsLeft(Run(INIT, es), n, Rows(Run(INIT, es)))
  {
    var s := Run(INIT, es);
    if AllDone(s) {
      fs := [];
      assert es + fs == es;
    } else {
      var t :| t in s.tasks && !IsDone(s.tasks[t]);
      var e := NoDeadlock(es, t);
      OneStepFewer(es, e, n);
      var rest := EveryTaskCanFinish(es + [e], n);
      fs := [e] + rest;
      assert es + fs == es + [e] + rest;
    }
  }

  lemma OneStepFewer(es: seq<Event>, e: Event, n: nat)
    requires IsRun(INIT, es) && NumberedBelow(Run(INIT, es), n) && e.Act? && Enabled(Run(INIT, es), e)
    ensures IsRun(INIT, es + [e]) && NumberedBelow(Run(INIT, es + [e]), n)
    ensures AllStepsLeft(Run(INIT, es + [e]), n, Rows(Run(INIT, es + [e])))
          < AllStepsLeft(Run(INIT, es), n, Rows(Run(INIT, es)))
  {
    var s := Run(INIT, es);
    OneMore(INIT, es, e);
    RunKeepsCustody(INIT, es);
    OneMore(s, [], e);
    assert [] + [e] == [e] && [e][..0] == [];
    StepsAreBounded(s, [e], n);
    assert Acts([e]) == 1;
    FewerRowsFewerSteps(Apply(s, e), n, Rows(Apply(s, e)), Rows(s));
  }

  lemma {:induction false} FewerRowsFewerSteps(s: State, n: nat, rows: nat, more: nat)
    requires rows <= more
    ensures AllStepsLeft(s, n, rows) <= AllStepsLeft(s, n, more)
  {
    if n > 0 {
      FewerRowsFewerSteps(s, n - 1, rows, more);
    }
  }

  /** So a refresh whose account was removed does end, and in an error, unless the row is re-created. */
  lemma RemovedRefreshEndsInError(es: seq<Event>, fs: seq<Event>, t: TaskId, id: string)
    requires IsRun(INIT, es) && IsRun(Run(INIT, es), fs) && NeverCreated(Run(INIT, es), fs, id)
    requires var s := Run(INIT, es); id !in s.db.accounts && t in s.tasks && Doomed(s.tasks[t], id)
    requires CannotGoOn(Run(Run(INIT, es), fs))
    ensures t in Run(Run(INIT, es), fs).tasks && Run(Run(INIT, es), fs).tasks[t].Failed?
  {
    RunKeepsCustody(INIT, es);
    RefreshOfRemovedAccountFails(Run(INIT, es), fs, t, id);
    RunsJoin(INIT, es, fs);
    MaximalRunsFinish(es + fs);
  }
}
