/** Mutual exclusion and progress of the account locks (`src/auth/token.rs:55`, `167-170`, `260-266`). */
module LifecycleLocks {
  import opened Prelude
  import opened Tables
  import opened TokenRules
  import opened Lifecycle

  /** The account whose lock a phase concerns. */
  function LockOf(p: Phase): Option<string> {
    if p.LockWait? || Critical(p) then Some(p.id) else None
  }

  /** A lock is held exactly by the task between acquiring and releasing it. */
  predicate Locked(s: State) {
    && (forall t | t in s.tasks && LockOf(s.tasks[t]).Some? :: LockOf(s.tasks[t]).value in s.locks)
    && (forall t | t in s.tasks && Critical(s.tasks[t]) :: s.locks[LockOf(s.tasks[t]).value] == Some(t))
    && (forall id | id in s.locks && s.locks[id].Some? ::
          var t := s.locks[id].value; t in s.tasks && Critical(s.tasks[t]) && s.tasks[t].id == id)
  }

  lemma StepKeepsLocked(s: State, e: Event)
    requires Locked(s) && Enabled(s, e)
    ensures Locked(Apply(s, e))
    ensures s.locks.Keys <= Apply(s, e).locks.Keys
  {
    if e.Act? {
      TakeKeepsLocked(s, e.task, s.tasks[e.task], e.choice);
    }
  }

  /** A step within, or outside of, the critical section. */
  lemma Elsewhere(s: State, s': State, t: TaskId, p': Phase)
    requires Locked(s) && t in s.tasks && s'.tasks == s.tasks[t := p'] && s'.locks == s.locks
    requires Critical(p') == Critical(s.tasks[t]) && LockOf(p') == LockOf(s.tasks[t])
    ensures Locked(s')
  {
    assert forall u | u in s'.tasks && u != t :: u in s.tasks && s'.tasks[u] == s.tasks[u];
  }

  lemma Enter(s: State, s': State, t: TaskId, p': Phase, id: string)
    requires Locked(s) && t in s.tasks && s'.tasks == s.tasks[t := p']
    requires !Critical(s.tasks[t]) && p'.LockWait? && p'.id == id
    requires s'.locks == if id in s.locks then s.locks else s.locks[id := None]
    ensures Locked(s')
  {
    assert forall u | u in s'.tasks && u != t :: u in s.tasks && s'.tasks[u] == s.tasks[u];
  }

  lemma Acquire(s: State, s': State, t: TaskId, p': Phase, id: string)
    requires Locked(s) && t in s.tasks && s'.tasks == s.tasks[t := p']
    requires !Critical(s.tasks[t]) && Critical(p') && p'.id == id
    requires id in s.locks && s.locks[id].None? && s'.locks == s.locks[id := Some(t)]
    ensures Locked(s')
  {
    assert forall u | u in s'.tasks && u != t :: u in s.tasks && s'.tasks[u] == s.tasks[u];
  }

  lemma Release(s: State, s': State, t: TaskId, p': Phase, id: string)
    requires Locked(s) && t in s.tasks && s'.tasks == s.tasks[t := p']
    requires Critical(s.tasks[t]) && s.tasks[t].id == id && LockOf(p').None?
    requires s'.locks == s.locks[id := None]
    ensures Locked(s')
  {
    assert forall u | u in s'.tasks && u != t :: u in s.tasks && s'.tasks[u] == s.tasks[u];
  }

  predicate LockStep(p: Phase) {
    p.LockEntry? || p.LockWait? || p.Unlock?
  }

  lemma OtherSteps(s: State, t: TaskId, p: Phase, c: Choice)
    requires CanAct(s, p, c) && !LockStep(p)
    ensures Take(s, t, p, c).locks == s.locks
  {
  }

  lemma OtherPhases(s: State, t: TaskId, p: Phase, c: Choice)
    requires CanAct(s, p, c) && !LockStep(p) && t in s.tasks && s.tasks[t] == p
    ensures var p' := Take(s, t, p, c).tasks[t]; Critical(p') == Critical(p) && LockOf(p') == LockOf(p)
  {
  }

  lemma TakeKeepsLocked(s: State, t: TaskId, p: Phase, c: Choice)
    requires Locked(s) && t in s.tasks && s.tasks[t] == p && CanAct(s, p, c)
    ensures Locked(Take(s, t, p, c))
    ensures s.locks.Keys <= Take(s, t, p, c).locks.Keys
  {
    var s' := Take(s, t, p, c);
    OnlyItsTaskMoves(s, t, p, c);
    if p.LockEntry? {
      Enter(s, s', t, s'.tasks[t], p.id);
    } else if p.LockWait? {
      Acquire(s, s', t, s'.tasks[t], p.id);
    } else if p.Unlock? {
      Release(s, s', t, s'.tasks[t], p.id);
    } else {
      OtherSteps(s, t, p, c);
      OtherPhases(s, t, p, c);
      Elsewhere(s, s', t, s'.tasks[t]);
    }
  }

  /** In every run the lock registry only grows and each lock has at most its one holder. */
  lemma {:induction false} RunKeepsLocked(s: State, es: seq<Event>)
    requires Locked(s) && IsRun(s, es)
    ensures Locked(Run(s, es))
    ensures s.locks.Keys <= Run(s, es).locks.Keys
  {
    if es != [] {
      RunKeepsLocked(s, es[..|es| - 1]);
      StepKeepsLocked(Run(s, es[..|es| - 1]), es[|es| - 1]);
    }
  }

  /** At most one task per account is between lock and unlock, and no task holds two locks. */
  lemma MutualExclusion(es: seq<Event>, t: TaskId, u: TaskId)
    requires IsRun(INIT, es)
    ensures var s := Run(INIT, es);
            && (t in s.tasks && u in s.tasks && Critical(s.tasks[t]) && Critical(s.tasks[u])
                && s.tasks[t].id == s.tasks[u].id
                ==> t == u)
            && (forall x, y | x in s.locks && y in s.locks && s.locks[x] == Some(t) && s.locks[y] == Some(t) :: x == y)
  {
    RunKeepsLocked(INIT, es);
  }

  // ---- Progress ---------------------------------------------------------------------

  /** A string longer than every string of a finite set: UUIDs do not run out. */
  lemma {:induction false} UnusedId(ids: set<string>) returns (unused: string)
    ensures unused !in ids
    ensures forall id | id in ids :: |id| < |unused|
  {
    if ids == {} {
      unused := "";
    } else {
      var id :| id in ids;
      unused := UnusedId(ids - {id});
      unused := unused + id + "x";
      assert forall x | x in ids :: x == id || x in ids - {id};
    }
  }

  lemma {:induction false} SomeOrder(s: set<string>) returns (ids: seq<string>)
    ensures IsOrderOf(ids, s)
  {
    if s == {} {
      ids := [];
    } else {
      var id :| id in s;
      ids := SomeOrder(s - {id});
      ids := ids + [id];
    }
  }

  /** What the machine needs to know about tokens in flight for their replies to be possible. */
  predicate Traceable(s: State, p: Phase) {
    && (p.Exchange? ==> p.current.refresh in s.provider.refreshOf)
    && (p.Resolve? ==> p.grant.access in s.provider.accessOf)
  }

  /** Whatever a task is doing, unless it waits for a held lock, some choice lets it go on. */
  lemma CanGoOn(s: State, p: Phase) returns (c: Choice)
    requires !IsDone(p) && Traceable(s, p)
    requires p.LockWait? ==> p.id in s.locks && s.locks[p.id].None?
    ensures CanAct(s, p, c)
  {
    c := Nothing;
    match p
    case Exchange(_, _, current) => c := Answer(Refused, s.provider.refreshOf[current.refresh]);
    case CodeExchange(_) => c := Answer(Refused, "");
    case Resolve(_, _, _) => c := Profile(false, None);
    case Lookup(tenant, email, _, _, _) =>
      if Matches(s.db, tenant, email) == {} {
        var id := UnusedId(s.history.identity.Keys);
        c := Row(id);
      } else {
        var id :| id in Matches(s.db, tenant, email);
        c := Row(id);
      }
    case RemoveByEmail(tenant, email) =>
      if Matches(s.db, tenant, email) == {} {
        c := Row("");
      } else {
        var id :| id in Matches(s.db, tenant, email);
        c := Row(id);
      }
    case ListActive => var ids := SomeOrder(ActiveIds(s.db)); c := Order(ids);
    case ListStale(days) => var ids := SomeOrder(InactiveIds(s.db, Cutoff(s.now, days))); c := Order(ids);
    case _ =>
  }

  /** No deadlock: while a task is unfinished, some task can step. */
  lemma SomeTaskCanStep(s: State, t: TaskId) returns (e: Event)
    requires Locked(s) && t in s.tasks && !IsDone(s.tasks[t])
    requires forall u | u in s.tasks :: Traceable(s, s.tasks[u])
    ensures e.Act? && Enabled(s, e)
  {
    var u := t;
    var p := s.tasks[t];
    if p.LockWait? && s.locks[p.id].Some? {
      u := s.locks[p.id].value;
    }
    var c := CanGoOn(s, s.tasks[u]);
    e := Act(u, c);
  }
}
