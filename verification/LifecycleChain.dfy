/**
 * The refresh-token chain: when a provider spends a refresh token on rotation (RFC 6749,
 * section 6), is the stored one always the live one? It is, in every interleaving, except
 * through one step of `bump_last_used` (`src/auth/token.rs:149-152`, `167-189`, `243-257`).
 */
module LifecycleChain {
  import opened Prelude
  import opened Tables
  import opened TokenRules
  import opened Lifecycle
  import opened LifecycleLocks
  import opened LifecycleCustody

  /** The holder of the account's lock is past its exchange and about to write. */
  predicate HolderWrites(s: State, id: string) {
    && id in s.locks && s.locks[id].Some? && s.locks[id].value in s.tasks
    && s.tasks[s.locks[id].value].RefreshWrite? && s.tasks[s.locks[id].value].id == id
  }

  predicate Spent(s: State, token: StoredToken) {
    token.refresh in s.provider.spent
  }

  predicate Live(s: State, id: string) {
    id in s.db.tokens ==> !Spent(s, s.db.tokens[id]) || HolderWrites(s, id)
  }

  /** What the other invariants are needed for, task by task. */
  predicate CarriesLive(s: State, t: TaskId, p: Phase) {
    && (p.Exchange? ==> !Spent(s, p.current))
    && (p.RefreshWrite? ==> !Spent(s, p.renewed))
    && (p.BumpWrite? && Spent(s, p.read) ==> t in s.history.overtaken || HolderWrites(s, p.id))
  }

  predicate Remembered(s: State) {
    && s.provider.spent <= s.history.home.Keys
    && (forall t | t in s.history.overtaken :: t in s.tasks &&
          (s.tasks[t].Got? || (s.tasks[t].BumpWrite? && Spent(s, s.tasks[t].read))))
  }

  /**
   * Every stored refresh token is live, or the lock holder is past its exchange and carries
   * the live one.
   */
  predicate Chain(s: State) {
    && (forall id | id in s.db.tokens :: Live(s, id))
    && (forall t | t in s.tasks :: CarriesLive(s, t, s.tasks[t]))
    && Remembered(s)
  }

  predicate Sound(s: State) {
    Locked(s) && Custody(s)
  }

  /**
   * A cache hit writes back a token it read before a refresh of the same account was
   * written, and no refresh in progress will overwrite it again.
   */
  predicate StaleBump(s: State, e: Event) {
    && e.Act? && e.task in s.tasks && s.tasks[e.task].BumpWrite? && e.task in s.history.overtaken
    && s.tasks[e.task].id in s.db.accounts && !HolderWrites(s, s.tasks[e.task].id)
  }

  // ---- Steps ------------------------------------------------------------------------

  /** Nothing about locks, spent tokens or writers changes; token rows come from the old ones or are live. */
  lemma ChainFrame(s: State, s': State, t: TaskId, p': Phase)
    requires Chain(s) && t in s.tasks && s'.tasks == s.tasks[t := p']
    requires s'.provider.spent == s.provider.spent && Extends(s.history.home, s'.history.home)
    requires s'.history.overtaken == s.history.overtaken
    requires t in s.history.overtaken ==> p'.Got? || (p'.BumpWrite? && Spent(s', p'.read))
    requires forall id :: HolderWrites(s', id) <==> HolderWrites(s, id)
    requires forall id | id in s'.db.tokens ::
               (id in s.db.tokens && s'.db.tokens[id] == s.db.tokens[id]) || Live(s', id)
    requires CarriesLive(s', t, p')
    ensures Chain(s')
  {
    forall id | id in s'.db.tokens ensures Live(s', id) {
      if id in s.db.tokens && s'.db.tokens[id] == s.db.tokens[id] {
        assert Live(s, id);
      }
    }
    forall u | u in s'.tasks ensures CarriesLive(s', u, s'.tasks[u]) {
      if u != t {
        assert u in s.tasks && s'.tasks[u] == s.tasks[u] && CarriesLive(s, u, s.tasks[u]);
      }
    }
    forall u | u in s'.history.overtaken
      ensures u in s'.tasks && (s'.tasks[u].Got? || (s'.tasks[u].BumpWrite? && Spent(s', s'.tasks[u].read)))
    {
      assert u != t ==> s'.tasks[u] == s.tasks[u];
    }
  }

  predicate Rotating(p: Phase, c: Choice) {
    p.Exchange? && c.Answer? && c.reply.Granted? && Rotates(p.current, c.reply.grant)
  }

  /** Only the presented token gets spent, and the holder of its account's lock carries its successor. */
  lemma RotationStep(s: State, t: TaskId, p: Phase, c: Choice)
    requires Sound(s) && Chain(s) && t in s.tasks && s.tasks[t] == p && CanAct(s, p, c) && Rotating(p, c)
    ensures var s' := Take(s, t, p, c);
            && s'.db == s.db && s'.locks == s.locks && s'.provider.spent == s.provider.spent + {p.current.refresh}
            && s'.history.overtaken == s.history.overtaken && HolderWrites(s', p.id)
            && p.current.refresh in s.history.home && s.history.home[p.current.refresh] == p.id
    ensures forall id :: HolderWrites(s, id) ==> HolderWrites(Take(s, t, p, c), id)
  {
    OnlyItsTaskMoves(s, t, p, c);
    assert PhaseOk(s, p);
  }

  lemma RotationKeepsStored(s: State, t: TaskId, p: Phase, c: Choice)
    requires Sound(s) && Chain(s) && t in s.tasks && s.tasks[t] == p && CanAct(s, p, c) && Rotating(p, c)
    ensures forall id | id in s.db.tokens :: Live(Take(s, t, p, c), id)
  {
    RotationStep(s, t, p, c);
    forall id | id in s.db.tokens ensures Live(Take(s, t, p, c), id) {
      assert Live(s, id) && Belongs(s, id, s.db.tokens[id]);
    }
  }

  lemma RotationKeepsCarried(s: State, t: TaskId, p: Phase, c: Choice, u: TaskId)
    requires Sound(s) && Chain(s) && t in s.tasks && s.tasks[t] == p && CanAct(s, p, c) && Rotating(p, c)
    requires u in s.tasks && u != t
    ensures CarriesLive(Take(s, t, p, c), u, s.tasks[u])
  {
    RotationStep(s, t, p, c);
    assert CarriesLive(s, u, s.tasks[u]) && PhaseOk(s, s.tasks[u]);
    if s.tasks[u].Exchange? || s.tasks[u].RefreshWrite? {
      assert s.tasks[u].id != p.id;
    }
  }

  lemma RotationKeepsRecords(s: State, t: TaskId, p: Phase, c: Choice)
    requires Sound(s) && Chain(s) && t in s.tasks && s.tasks[t] == p && CanAct(s, p, c) && Rotating(p, c)
    ensures Remembered(Take(s, t, p, c)) && CarriesLive(Take(s, t, p, c), t, Take(s, t, p, c).tasks[t])
  {
    var s' := Take(s, t, p, c);
    OnlyItsTaskMoves(s, t, p, c);
    assert PhaseOk(s, p) && CarriesLive(s, t, p);
    assert s'.tasks[t].renewed.refresh == c.reply.grant.refresh.value;
    forall u | u in s'.history.overtaken
      ensures u in s'.tasks && (s'.tasks[u].Got? || (s'.tasks[u].BumpWrite? && Spent(s', s'.tasks[u].read)))
    {
      assert u != t && s'.tasks[u] == s.tasks[u];
    }
  }

  lemma ExchangeKeepsChain(s: State, t: TaskId, p: Phase, c: Choice)
    requires Sound(s) && Chain(s) && t in s.tasks && s.tasks[t] == p && p.Exchange? && CanAct(s, p, c)
    ensures Chain(Take(s, t, p, c))
  {
    var s' := Take(s, t, p, c);
    OnlyItsTaskMoves(s, t, p, c);
    if Rotating(p, c) {
      RotationKeepsStored(s, t, p, c);
      forall u | u in s.tasks && u != t ensures CarriesLive(s', u, s'.tasks[u]) {
        RotationKeepsCarried(s, t, p, c, u);
      }
      RotationKeepsRecords(s, t, p, c);
    } else {
      QuietExchangeKeepsChain(s, t, p, c);
    }
  }

  /** Without a rotation nothing gets spent and nothing is written. */
  lemma QuietExchangeSpendsNothing(s: State, t: TaskId, p: Phase, c: Choice)
    requires p.Exchange? && CanAct(s, p, c) && !Rotating(p, c)
    ensures var s' := Take(s, t, p, c);
            && s'.db == s.db && s'.locks == s.locks && s'.provider.spent == s.provider.spent && s'.history == s.history
            && (s'.tasks[t].RefreshWrite? ==>
                  s'.tasks[t].id == p.id && s'.tasks[t].renewed.refresh == p.current.refresh)
            && !s'.tasks[t].Exchange? && !s'.tasks[t].BumpWrite? && !s'.tasks[t].Got?
  {
  }

  lemma QuietExchangeKeepsHolders(s: State, t: TaskId, p: Phase, c: Choice, id: string)
    requires Sound(s) && Chain(s) && t in s.tasks && s.tasks[t] == p
    requires p.Exchange? && CanAct(s, p, c) && !Rotating(p, c)
    ensures HolderWrites(s, id) ==> HolderWrites(Take(s, t, p, c), id)
  {
    OnlyItsTaskMoves(s, t, p, c);
    QuietExchangeSpendsNothing(s, t, p, c);
  }

  lemma QuietExchangeKeepsStored(s: State, t: TaskId, p: Phase, c: Choice)
    requires Sound(s) && Chain(s) && t in s.tasks && s.tasks[t] == p
    requires p.Exchange? && CanAct(s, p, c) && !Rotating(p, c)
    ensures forall id | id in Take(s, t, p, c).db.tokens :: Live(Take(s, t, p, c), id)
  {
    var s' := Take(s, t, p, c);
    QuietExchangeSpendsNothing(s, t, p, c);
    forall id | id in s'.db.tokens ensures Live(s', id) {
      assert Live(s, id);
      QuietExchangeKeepsHolders(s, t, p, c, id);
    }
  }

  lemma QuietExchangeKeepsCarried(s: State, t: TaskId, p: Phase, c: Choice, u: TaskId)
    requires u in s.tasks
    requires Sound(s) && Chain(s) && t in s.tasks && s.tasks[t] == p
    requires p.Exchange? && CanAct(s, p, c) && !Rotating(p, c)
    ensures CarriesLive(Take(s, t, p, c), u, Take(s, t, p, c).tasks[u])
  {
    OnlyItsTaskMoves(s, t, p, c);
    QuietExchangeSpendsNothing(s, t, p, c);
    assert CarriesLive(s, t, p) && CarriesLive(s, u, s.tasks[u]);
    if u != t && s.tasks[u].BumpWrite? {
      QuietExchangeKeepsHolders(s, t, p, c, s.tasks[u].id);
    }
  }

  lemma QuietExchangeKeepsRecords(s: State, t: TaskId, p: Phase, c: Choice)
    requires Sound(s) && Chain(s) && t in s.tasks && s.tasks[t] == p
    requires p.Exchange? && CanAct(s, p, c) && !Rotating(p, c)
    ensures Remembered(Take(s, t, p, c))
  {
    OnlyItsTaskMoves(s, t, p, c);
    QuietExchangeSpendsNothing(s, t, p, c);
    assert t !in s.history.overtaken;
  }

  lemma QuietExchangeKeepsChain(s: State, t: TaskId, p: Phase, c: Choice)
    requires Sound(s) && Chain(s) && t in s.tasks && s.tasks[t] == p
    requires p.Exchange? && CanAct(s, p, c) && !Rotating(p, c)
    ensures Chain(Take(s, t, p, c))
  {
    OnlyItsTaskMoves(s, t, p, c);
    QuietExchangeKeepsStored(s, t, p, c);
    QuietExchangeKeepsRecords(s, t, p, c);
    forall u | u in Take(s, t, p, c).tasks ensures CarriesLive(Take(s, t, p, c), u, Take(s, t, p, c).tasks[u]) {
      QuietExchangeKeepsCarried(s, t, p, c, u);
    }
  }

  lemma WriteStep(s: State, t: TaskId, p: Phase, c: Choice)
    requires p.RefreshWrite? && CanAct(s, p, c)
    ensures var s' := Take(s, t, p, c);
            && s'.db == Upsert(s.db, p.id, p.renewed) && s'.locks == s.locks && s'.provider == s.provider
            && s'.history.home == s.history.home && s'.history.overtaken == s.history.overtaken + Overtaken(s, p.id)
            && s'.tasks[t].Unlock?
  {
  }

  lemma WriteKeepsOtherHolders(s: State, t: TaskId, p: Phase, c: Choice, id: string)
    requires Sound(s) && Chain(s) && t in s.tasks && s.tasks[t] == p && p.RefreshWrite? && CanAct(s, p, c)
    requires id != p.id
    ensures HolderWrites(Take(s, t, p, c), id) <==> HolderWrites(s, id)
  {
    OnlyItsTaskMoves(s, t, p, c);
    WriteStep(s, t, p, c);
  }

  lemma WriteKeepsStored(s: State, t: TaskId, p: Phase, c: Choice)
    requires Sound(s) && Chain(s) && t in s.tasks && s.tasks[t] == p && p.RefreshWrite? && CanAct(s, p, c)
    ensures forall id | id in Take(s, t, p, c).db.tokens :: Live(Take(s, t, p, c), id)
  {
    var s' := Take(s, t, p, c);
    WriteStep(s, t, p, c);
    assert CarriesLive(s, t, p);
    forall id | id in s'.db.tokens ensures Live(s', id) {
      if id != p.id {
        assert Live(s, id);
        WriteKeepsOtherHolders(s, t, p, c, id);
      } else {
        assert id in s.db.accounts;
      }
    }
  }

  lemma WriteKeepsCarried(s: State, t: TaskId, p: Phase, c: Choice, u: TaskId)
    requires u in s.tasks && u != t
    requires Sound(s) && Chain(s) && t in s.tasks && s.tasks[t] == p && p.RefreshWrite? && CanAct(s, p, c)
    ensures CarriesLive(Take(s, t, p, c), u, s.tasks[u])
  {
    WriteStep(s, t, p, c);
    assert CarriesLive(s, u, s.tasks[u]);
    if s.tasks[u].BumpWrite? && s.tasks[u].id != p.id {
      WriteKeepsOtherHolders(s, t, p, c, s.tasks[u].id);
    }
  }

  lemma WriteKeepsRecords(s: State, t: TaskId, p: Phase, c: Choice)
    requires Sound(s) && Chain(s) && t in s.tasks && s.tasks[t] == p && p.RefreshWrite? && CanAct(s, p, c)
    ensures Remembered(Take(s, t, p, c))
  {
    OnlyItsTaskMoves(s, t, p, c);
    WriteStep(s, t, p, c);
    assert t !in s.history.overtaken && t !in Overtaken(s, p.id);
  }

  lemma RefreshWriteKeepsChain(s: State, t: TaskId, p: Phase, c: Choice)
    requires Sound(s) && Chain(s) && t in s.tasks && s.tasks[t] == p && p.RefreshWrite? && CanAct(s, p, c)
    ensures Chain(Take(s, t, p, c))
  {
    var s' := Take(s, t, p, c);
    OnlyItsTaskMoves(s, t, p, c);
    WriteStep(s, t, p, c);
    WriteKeepsStored(s, t, p, c);
    WriteKeepsRecords(s, t, p, c);
    forall u | u in s'.tasks ensures CarriesLive(s', u, s'.tasks[u]) {
      if u != t {
        WriteKeepsCarried(s, t, p, c, u);
      }
    }
  }

  lemma LockStepLeaves(s: State, t: TaskId, p: Phase, c: Choice)
    requires LockStep(p) && CanAct(s, p, c)
    ensures var s' := Take(s, t, p, c);
            && s'.db == s.db && s'.provider == s.provider && s'.history == s.history
            && !s'.tasks[t].RefreshWrite? && !s'.tasks[t].Exchange? && !s'.tasks[t].BumpWrite?
            && (s'.locks == s.locks || s'.locks == s.locks[p.id := None] || s'.locks == s.locks[p.id := Some(t)])
            && (p.LockEntry? && p.id in s.locks ==> s'.locks == s.locks)
  {
  }

  lemma LockStepKeepsHolders(s: State, t: TaskId, p: Phase, c: Choice, id: string)
    requires Locked(s) && t in s.tasks && s.tasks[t] == p && LockStep(p) && CanAct(s, p, c)
    ensures HolderWrites(Take(s, t, p, c), id) <==> HolderWrites(s, id)
  {
    OnlyItsTaskMoves(s, t, p, c);
    LockStepLeaves(s, t, p, c);
    if id == p.id {
      assert !HolderWrites(Take(s, t, p, c), id) || p.LockEntry?;
    }
  }

  /** Steps that touch the locks do so while nobody is past an exchange on that account. */
  lemma LockStepsKeepChain(s: State, t: TaskId, p: Phase, c: Choice)
    requires Sound(s) && Chain(s) && t in s.tasks && s.tasks[t] == p && LockStep(p) && CanAct(s, p, c)
    ensures Chain(Take(s, t, p, c))
  {
    var s' := Take(s, t, p, c);
    OnlyItsTaskMoves(s, t, p, c);
    LockStepLeaves(s, t, p, c);
    forall id ensures HolderWrites(s', id) <==> HolderWrites(s, id) {
      LockStepKeepsHolders(s, t, p, c, id);
    }
    ChainFrame(s, s', t, s'.tasks[t]);
  }

  lemma BumpKeepsChain(s: State, t: TaskId, p: Phase, c: Choice)
    requires Sound(s) && Chain(s) && t in s.tasks && s.tasks[t] == p && p.BumpWrite? && CanAct(s, p, c)
    requires !StaleBump(s, Act(t, c))
    ensures Chain(Take(s, t, p, c))
  {
    var s' := Take(s, t, p, c);
    OnlyItsTaskMoves(s, t, p, c);
    assert CarriesLive(s, t, p);
    HoldersStay(s, s', t);
    ChainFrame(s, s', t, s'.tasks[t]);
  }

  lemma HoldersStay(s: State, s': State, t: TaskId)
    requires Locked(s) && t in s.tasks && t in s'.tasks && s'.tasks == s.tasks[t := s'.tasks[t]] && s'.locks == s.locks
    requires s.tasks[t].RefreshWrite? == s'.tasks[t].RefreshWrite? == false
    ensures forall id :: HolderWrites(s', id) <==> HolderWrites(s, id)
  {
  }

  predicate ChainCritical(p: Phase) {
    p.Exchange? || p.RefreshWrite? || LockStep(p) || p.BumpWrite?
  }

  lemma OtherStepsLeave(s: State, t: TaskId, p: Phase, c: Choice)
    requires !ChainCritical(p) && CanAct(s, p, c) && t in s.tasks && s.tasks[t] == p
    ensures var s' := Take(s, t, p, c);
            && s'.locks == s.locks && s'.provider.spent == s.provider.spent
            && s'.history.overtaken == s.history.overtaken
            && !s'.tasks[t].RefreshWrite?
            && (p.Got? <==> s'.tasks[t].Got? && IsDone(p) && !p.Finished? && !p.Failed?)
  {
  }

  /** What such a step goes on to carry, it just read from the table. */
  lemma OtherStepsCarry(s: State, t: TaskId, p: Phase, c: Choice)
    requires !ChainCritical(p) && CanAct(s, p, c)
    ensures var p' := Take(s, t, p, c).tasks[t];
            && (p'.Exchange? && p != p' ==>
                  p.RefreshRead? && p.id in s.db.tokens && p'.current == s.db.tokens[p.id] && p'.id == p.id)
            && (p'.BumpWrite? && p != p' ==>
                  p.GetRead? && p.id in s.db.tokens && p'.read == s.db.tokens[p.id] && p'.id == p.id)
  {
  }

  lemma OtherWrites(s: State, t: TaskId, p: Phase, c: Choice)
    requires !ChainCritical(p) && CanAct(s, p, c)
    ensures forall id | id in Take(s, t, p, c).db.tokens ::
              (id in s.db.tokens && Take(s, t, p, c).db.tokens[id] == s.db.tokens[id])
              || (p.ConsentWrite? && id == p.account.id && Take(s, t, p, c).db.tokens[id] == p.token)
  {
  }

  lemma OtherStepsCarryLive(s: State, t: TaskId, p: Phase, c: Choice)
    requires Sound(s) && Chain(s) && t in s.tasks && s.tasks[t] == p && !ChainCritical(p) && CanAct(s, p, c)
    ensures CarriesLive(Take(s, t, p, c), t, Take(s, t, p, c).tasks[t])
  {
    OnlyItsTaskMoves(s, t, p, c);
    OtherStepsLeave(s, t, p, c);
    OtherStepsCarry(s, t, p, c);
    HoldersStay(s, Take(s, t, p, c), t);
    if p.RefreshRead? || p.GetRead? {
      assert p.id in s.db.tokens ==> Live(s, p.id);
    }
  }

  lemma OtherStepsKeepChain(s: State, t: TaskId, p: Phase, c: Choice)
    requires Sound(s) && Chain(s) && t in s.tasks && s.tasks[t] == p && !ChainCritical(p) && CanAct(s, p, c)
    ensures Chain(Take(s, t, p, c))
  {
    var s' := Take(s, t, p, c);
    OnlyItsTaskMoves(s, t, p, c);
    OtherStepsLeave(s, t, p, c);
    OtherWrites(s, t, p, c);
    OtherStepsCarryLive(s, t, p, c);
    TakeKeepsCustody(s, t, p, c);
    HoldersStay(s, s', t);
    assert PhaseOk(s, p);
    ChainFrame(s, s', t, s'.tasks[t]);
  }

  /** One step keeps the chain exactly when it is not a stale bump. */
  lemma StepKeepsChainIff(s: State, e: Event)
    requires Sound(s) && Chain(s) && Enabled(s, e)
    ensures Chain(Apply(s, e)) <==> !StaleBump(s, e)
  {
    match e
    case Begin(task, phase) => BeginKeepsChain(s, task, phase);
    case Wait(until) => WaitKeepsChain(s, until);
    case Act(t, c) =>
      var p := s.tasks[t];
      if StaleBump(s, e) {
        StaleBumpBreaksChain(s, e);
      } else if p.Exchange? {
        ExchangeKeepsChain(s, t, p, c);
      } else if p.RefreshWrite? {
        RefreshWriteKeepsChain(s, t, p, c);
      } else if LockStep(p) {
        LockStepsKeepChain(s, t, p, c);
      } else if p.BumpWrite? {
        BumpKeepsChain(s, t, p, c);
      } else {
        OtherStepsKeepChain(s, t, p, c);
      }
  }

  lemma BeginKeepsChain(s: State, t: TaskId, p: Phase)
    requires Chain(s) && Enabled(s, Begin(t, p))
    ensures Chain(Apply(s, Begin(t, p)))
  {
    var s' := Apply(s, Begin(t, p));
    forall id | id in s'.db.tokens ensures Live(s', id) {
      assert Live(s, id);
    }
    forall u | u in s'.tasks ensures CarriesLive(s', u, s'.tasks[u]) {
      assert u != t ==> u in s.tasks && s'.tasks[u] == s.tasks[u] && CarriesLive(s, u, s.tasks[u]);
    }
  }

  lemma WaitKeepsChain(s: State, until: Timestamps.Instant)
    requires Chain(s) && Enabled(s, Wait(until))
    ensures Chain(Apply(s, Wait(until)))
  {
    var s' := Apply(s, Wait(until));
    forall id | id in s'.db.tokens ensures Live(s', id) {
      assert Live(s, id);
    }
    forall u | u in s'.tasks ensures CarriesLive(s', u, s'.tasks[u]) {
      assert CarriesLive(s, u, s.tasks[u]);
    }
  }

  /** A stale bump puts a spent refresh token back, with nobody left to replace it. */
  lemma StaleBumpBreaksChain(s: State, e: Event)
    requires Sound(s) && Chain(s) && Enabled(s, e) && StaleBump(s, e)
    ensures var s', id := Apply(s, e), s.tasks[e.task].id;
            id in s'.db.tokens && Spent(s', s'.db.tokens[id]) && !Live(s', id)
    ensures !Chain(Apply(s, e))
  {
    var s', id := Apply(s, e), s.tasks[e.task].id;
    OnlyItsTaskMoves(s, e.task, s.tasks[e.task], e.choice);
    HoldersStay(s, s', e.task);
    assert !Live(s', id);
  }

  // ---- Runs -------------------------------------------------------------------------

  predicate Clean(s: State, es: seq<Event>)
    requires IsRun(s, es)
  {
    es == [] || (Clean(s, es[..|es| - 1]) && !StaleBump(Run(s, es[..|es| - 1]), es[|es| - 1]))
  }

  /** The chain held at every moment of the run. */
  predicate ChainThroughout(s: State, es: seq<Event>)
    requires IsRun(s, es)
  {
    Chain(Run(s, es)) && (es == [] || ChainThroughout(s, es[..|es| - 1]))
  }

  lemma {:induction false} RunIsSound(es: seq<Event>)
    requires IsRun(INIT, es)
    ensures Sound(Run(INIT, es))
  {
    RunKeepsLocked(INIT, es);
    RunKeepsCustody(INIT, es);
  }

  /** Of all runs, exactly those without a stale bump keep the chain throughout. */
  lemma {:induction false} ChainHoldsIffClean(es: seq<Event>)
    requires IsRun(INIT, es)
    ensures ChainThroughout(INIT, es) <==> Clean(INIT, es)
  {
    if es != [] {
      var front := es[..|es| - 1];
      ChainHoldsIffClean(front);
      RunIsSound(front);
      if ChainThroughout(INIT, front) {
        StepKeepsChainIff(Run(INIT, front), es[|es| - 1]);
      }
    }
  }

  /** No refresh writes its token while a cache hit of the same account is about to write back its own. */
  predicate BumpsApart(s: State, es: seq<Event>)
    requires IsRun(s, es)
  {
    es == [] ||
    (var m, e := Run(s, es[..|es| - 1]), es[|es| - 1];
     && BumpsApart(s, es[..|es| - 1])
     && (e.Act? && m.tasks[e.task].RefreshWrite? ==>
           forall t | t in m.tasks && m.tasks[t].BumpWrite? :: m.tasks[t].id != m.tasks[e.task].id))
  }

  lemma OnlyWritesOvertake(s: State, t: TaskId, p: Phase, c: Choice)
    requires CanAct(s, p, c)
    ensures Take(s, t, p, c).history.overtaken ==
              if p.RefreshWrite? then s.history.overtaken + Overtaken(s, p.id) else s.history.overtaken
  {
  }

  /** On the schedule alone: runs that keep the two apart are clean, so the chain holds throughout. */
  lemma {:induction false} BumpsApartKeepChain(es: seq<Event>)
    requires IsRun(INIT, es) && BumpsApart(INIT, es)
    ensures Run(INIT, es).history.overtaken == {} && Clean(INIT, es) && ChainThroughout(INIT, es)
  {
    if es != [] {
      var front, e := es[..|es| - 1], es[|es| - 1];
      BumpsApartKeepChain(front);
      if e.Act? {
        var m := Run(INIT, front);
        OnlyWritesOvertake(m, e.task, m.tasks[e.task], e.choice);
      }
    }
    ChainHoldsIffClean(es);
  }

  /** In a clean run no refresh ever presents a spent token. */
  lemma NoSpentTokenIsPresented(es: seq<Event>, t: TaskId)
    requires IsRun(INIT, es) && Clean(INIT, es)
    requires t in Run(INIT, es).tasks && Run(INIT, es).tasks[t].Exchange?
    ensures !Spent(Run(INIT, es), Run(INIT, es).tasks[t].current)
  {
    ChainHoldsIffClean(es);
    assert CarriesLive(Run(INIT, es), t, Run(INIT, es).tasks[t]);
  }

  /** No run deadlocks: while any task is unfinished, some task can step. */
  lemma NoDeadlock(es: seq<Event>, t: TaskId) returns (e: Event)
    requires IsRun(INIT, es) && t in Run(INIT, es).tasks && !IsDone(Run(INIT, es).tasks[t])
    ensures e.Act? && Enabled(Run(INIT, es), e)
  {
    var s := Run(INIT, es);
    RunIsSound(es);
    forall u | u in s.tasks ensures Traceable(s, s.tasks[u]) {
      assert PhaseOk(s, s.tasks[u]);
    }
    e := SomeTaskCanStep(s, t);
  }
}
