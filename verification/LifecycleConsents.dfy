/**
 * The flow registry and the token lifecycle together (`src/auth/token.rs:78-142`,
 * `src/storage/flows.rs:56-116`): the callback takes its flow, and only if it resolves does a
 * consent go on, for that flow's tenant.
 */
module LifecycleConsents {
  import opened Prelude
  import opened Crypto
  import opened Lifecycle
  import opened LifecycleCustody
  import opened LifecycleAccounts
  import F = Flows

  datatype System = System(registry: F.Registry, state: State)

  datatype Move =
    | BeginFlow(state: string, verifier: Secret, tenant: string, nonce: seq<byte>, at: int)
    | CompleteFlow(state: string, at: int, task: TaskId)
    | Restart(key: seq<byte>)
    | Other(event: Event)

  /** Consents begin with a callback and in no other way. */
  predicate CanMove(j: System, m: Move) {
    match m
    case BeginFlow(_, _, _, _, _) => true
    case CompleteFlow(_, _, task) => task !in j.state.tasks
    case Restart(_) => true
    case Other(e) => Enabled(j.state, e) && !(e.Begin? && e.phase.CodeExchange?)
  }

  /** What a move does to the registry, if anything. */
  function OpOf(m: Move): Option<F.FlowOp> {
    match m
    case BeginFlow(state, verifier, tenant, nonce, at) => Some(F.Begin(state, verifier, tenant, nonce, at))
    case CompleteFlow(state, at, _) => Some(F.Callback(state, at))
    case Restart(key) => Some(F.Reopen(key))
    case Other(_) => None
  }

  /** The flow a callback takes. */
  function Taken(aead: Aead, r: F.Registry, m: Move): Result<F.PendingFlow, F.FlowError>
    requires m.CompleteFlow?
  {
    F.Resolve(aead, r.key, r.rows, m.state, m.at)
  }

  /** What a move does to the tasks, if anything. */
  function EventOf(aead: Aead, r: F.Registry, m: Move): Option<Event> {
    if m.Other? then Some(m.event)
    else if m.CompleteFlow? && Taken(aead, r, m).Ok?
        then Some(Begin(m.task, CodeExchange(Taken(aead, r, m).value.tenant)))
    else None
  }

  function Moved(aead: Aead, j: System, m: Move): System
    requires CanMove(j, m)
  {
    var op, e := OpOf(m), EventOf(aead, j.registry, m);
    System(if op.None? then j.registry else F.Step(aead, j.registry, op.value),
           if e.None? then j.state else Apply(j.state, e.value))
  }

  predicate IsHistory(aead: Aead, key: seq<byte>, ms: seq<Move>)
    decreases |ms|, 0
  {
    ms == [] || (IsHistory(aead, key, ms[..|ms| - 1]) && CanMove(Now(aead, key, ms[..|ms| - 1]), ms[|ms| - 1]))
  }

  function Now(aead: Aead, key: seq<byte>, ms: seq<Move>): System
    requires IsHistory(aead, key, ms)
    decreases |ms|, 1
  {
    if ms == [] then System(F.Registry(map[], key), INIT)
    else Moved(aead, Now(aead, key, ms[..|ms| - 1]), ms[|ms| - 1])
  }

  function Append<T>(s: seq<T>, x: Option<T>): seq<T> {
    if x.None? then s else s + [x.value]
  }

  lemma LastOf<T>(s: seq<T>, x: Option<T>)
    requires x.Some?
    ensures Append(s, x)[..|Append(s, x)| - 1] == s && Append(s, x)[|Append(s, x)| - 1] == x.value
  {
  }

  function FlowOps(ms: seq<Move>): seq<F.FlowOp> {
    if ms == [] then [] else Append(FlowOps(ms[..|ms| - 1]), OpOf(ms[|ms| - 1]))
  }

  function Events(aead: Aead, key: seq<byte>, ms: seq<Move>): seq<Event>
    requires IsHistory(aead, key, ms)
  {
    if ms == [] then []
    else
      Append(Events(aead, key, ms[..|ms| - 1]),
             EventOf(aead, Now(aead, key, ms[..|ms| - 1]).registry, ms[|ms| - 1]))
  }

  /** The states any callback came with. */
  function Called(ms: seq<Move>): set<string> {
    set i | 0 <= i < |ms| && ms[i].CompleteFlow? :: ms[i].state
  }

  /** The registry's half of a history is a run of the registry. */
  lemma {:induction false} RegistryRuns(aead: Aead, key: seq<byte>, ms: seq<Move>)
    requires IsHistory(aead, key, ms)
    ensures F.After(aead, key, FlowOps(ms)) == Now(aead, key, ms).registry
  {
    if ms != [] {
      var front, op := ms[..|ms| - 1], OpOf(ms[|ms| - 1]);
      RegistryRuns(aead, key, front);
      if op.Some? {
        LastOf(FlowOps(front), op);
      }
    }
  }

  /** The tasks' half of a history is a run of the tasks. */
  lemma {:induction false} TasksRun(aead: Aead, key: seq<byte>, ms: seq<Move>)
    requires IsHistory(aead, key, ms)
    ensures IsRun(INIT, Events(aead, key, ms)) && Run(INIT, Events(aead, key, ms)) == Now(aead, key, ms).state
  {
    if ms != [] {
      var front, m := ms[..|ms| - 1], ms[|ms| - 1];
      TasksRun(aead, key, front);
      var j := Now(aead, key, front);
      var e := EventOf(aead, j.registry, m);
      if e.Some? {
        assert Enabled(j.state, e.value);
        OneMore(INIT, Events(aead, key, front), e.value);
      }
    }
  }

  lemma CountOne(aead: Aead, key: seq<byte>, ops: seq<F.FlowOp>, op: F.FlowOp, interest: set<string>)
    ensures F.Count(aead, key, ops + [op], interest).taken == F.Count(aead, key, ops, interest).taken +
              var r := F.After(aead, key, ops);
              var taken := op.Callback? && op.state in interest && F.Resolve(aead, r.key, r.rows, op.state, op.at).Ok?;
              if taken then 1 else 0
  {
    LastOf(ops, Some(op));
    assert Append(ops, Some(op)) == ops + [op];
  }

  lemma BeginOne(es: seq<Event>, e: Event)
    ensures ConsentsBegun(es + [e]) == ConsentsBegun(es) + if e.Begin? && e.phase.CodeExchange? then 1 else 0
  {
    LastOf(es, Some(e));
    assert Append(es, Some(e)) == es + [e];
  }

  /** One move begins a consent exactly when it takes a flow. */
  lemma MoveCountsAlike(aead: Aead, key: seq<byte>, ops: seq<F.FlowOp>, es: seq<Event>, r: F.Registry, m: Move,
                        interest: set<string>)
    requires r == F.After(aead, key, ops) && (m.CompleteFlow? ==> m.state in interest)
    requires m.Other? ==> !(m.event.Begin? && m.event.phase.CodeExchange?)
    requires ConsentsBegun(es) == F.Count(aead, key, ops, interest).taken
    ensures ConsentsBegun(Append(es, EventOf(aead, r, m))) == F.Count(aead, key, Append(ops, OpOf(m)), interest).taken
  {
    var op, e := OpOf(m), EventOf(aead, r, m);
    if op.Some? {
      CountOne(aead, key, ops, op.value, interest);
    }
    if e.Some? {
      BeginOne(es, e.value);
    }
  }

  /** As many consents begin as flows are taken. */
  lemma {:induction false} ConsentsAreTakes(aead: Aead, key: seq<byte>, ms: seq<Move>, interest: set<string>)
    requires IsHistory(aead, key, ms) && Called(ms) <= interest
    ensures ConsentsBegun(Events(aead, key, ms)) == F.Count(aead, key, FlowOps(ms), interest).taken
  {
    if ms != [] {
      var front, m := ms[..|ms| - 1], ms[|ms| - 1];
      assert Called(front) <= Called(ms) && (m.CompleteFlow? ==> m.state in Called(ms));
      ConsentsAreTakes(aead, key, front, interest);
      RegistryRuns(aead, key, front);
      MoveCountsAlike(aead, key, FlowOps(front), Events(aead, key, front), Now(aead, key, front).registry, m, interest);
    }
  }

  /** However callbacks overlap, rows <= accounts created <= successful takes. */
  lemma TakesBoundAccounts(aead: Aead, key: seq<byte>, ms: seq<Move>)
    requires IsHistory(aead, key, ms)
    ensures IsRun(INIT, Events(aead, key, ms))
    ensures |Now(aead, key, ms).state.db.accounts.Keys|
         <= AccountsCreated(INIT, Events(aead, key, ms))
         <= F.Count(aead, key, FlowOps(ms), Called(ms)).taken
  {
    TasksRun(aead, key, ms);
    ConsentsAreTakes(aead, key, ms, Called(ms));
    ConsentsBoundAccounts(Events(aead, key, ms));
  }

  // ---- Whose accounts ---------------------------------------------------------------

  /** The tenants flows were begun for. */
  function Begun(ops: seq<F.FlowOp>): set<string> {
    set i | 0 <= i < |ops| && ops[i].Begin? :: ops[i].tenant
  }

  predicate ForTenants(s: State, tenants: set<string>) {
    && (forall id | id in s.history.identity :: s.history.identity[id].tenant in tenants)
    && (forall t | t in s.tasks && (s.tasks[t].CodeExchange? || s.tasks[t].Resolve? || s.tasks[t].Lookup?) ::
          s.tasks[t].tenant in tenants)
  }

  lemma StepKeepsTenants(s: State, e: Event, tenants: set<string>)
    requires ForTenants(s, tenants) && Enabled(s, e)
    requires (e.Begin? && e.phase.CodeExchange? ==> e.phase.tenant in tenants)
    ensures ForTenants(Apply(s, e), tenants)
  {
    if e.Act? {
      OnlyItsTaskMoves(s, e.task, s.tasks[e.task], e.choice);
      ActKeepsTenants(s, e.task, s.tasks[e.task], e.choice, tenants);
    }
  }

  lemma ActKeepsTenants(s: State, t: TaskId, p: Phase, c: Choice, tenants: set<string>)
    requires ForTenants(s, tenants) && t in s.tasks && s.tasks[t] == p && CanAct(s, p, c)
    ensures var s', p' := Take(s, t, p, c), Take(s, t, p, c).tasks[t];
            && (forall id | id in s'.history.identity :: s'.history.identity[id].tenant in tenants)
            && (p'.CodeExchange? || p'.Resolve? || p'.Lookup? ==> p'.tenant in tenants)
  {
    NextKeepsTenant(s, t, p, c);
    if p.Lookup? {
      LookupKeepsTenants(s, t, p, c, tenants);
    } else {
      IssuersOnly(s, t, p, c);
    }
  }

  lemma NextKeepsTenant(s: State, t: TaskId, p: Phase, c: Choice)
    requires CanAct(s, p, c)
    ensures var p' := Take(s, t, p, c).tasks[t];
            p'.CodeExchange? || p'.Resolve? || p'.Lookup? ==> (p.CodeExchange? || p.Resolve?) && p'.tenant == p.tenant
  {
  }

  lemma LookupKeepsTenants(s: State, t: TaskId, p: Phase, c: Choice, tenants: set<string>)
    requires ForTenants(s, tenants) && p.Lookup? && p.tenant in tenants && CanAct(s, p, c)
    ensures var s' := Take(s, t, p, c);
            forall id | id in s'.history.identity :: s'.history.identity[id].tenant in tenants
  {
  }

  lemma MoreTenants(s: State, tenants: set<string>, more: set<string>)
    requires ForTenants(s, tenants) && tenants <= more
    ensures ForTenants(s, more)
  {
  }

  lemma BegunGrows(ops: seq<F.FlowOp>, op: Option<F.FlowOp>)
    ensures Begun(ops) <= Begun(Append(ops, op))
  {
    assert forall i | 0 <= i < |ops| :: Append(ops, op)[i] == ops[i];
  }

  lemma {:induction false} ConsentsAreForBegunTenants(aead: Aead, key: seq<byte>, ms: seq<Move>)
    requires IsHistory(aead, key, ms)
    ensures ForTenants(Now(aead, key, ms).state, Begun(FlowOps(ms)))
  {
    if ms != [] {
      var front, m := ms[..|ms| - 1], ms[|ms| - 1];
      ConsentsAreForBegunTenants(aead, key, front);
      RegistryRuns(aead, key, front);
      var j, before := Now(aead, key, front), FlowOps(front);
      BegunGrows(before, OpOf(m));
      MoreTenants(j.state, Begun(before), Begun(FlowOps(ms)));
      var e := EventOf(aead, j.registry, m);
      if e.Some? {
        if m.CompleteFlow? {
          var i := F.PendingHasOrigin(aead, key, before, m.state);
          assert before[i].tenant in Begun(before);
        }
        StepKeepsTenants(j.state, e.value, Begun(FlowOps(ms)));
      }
    }
  }

  /** Every account belongs to a tenant some flow was begun for: the callback cannot choose another. */
  lemma AccountsAreForBegunTenants(aead: Aead, key: seq<byte>, ms: seq<Move>, id: string)
    requires IsHistory(aead, key, ms) && id in Now(aead, key, ms).state.db.accounts
    ensures exists i :: 0 <= i < |FlowOps(ms)| && FlowOps(ms)[i].Begin?
                        && FlowOps(ms)[i].tenant == Now(aead, key, ms).state.db.accounts[id].tenant
  {
    ConsentsAreForBegunTenants(aead, key, ms);
    TasksRun(aead, key, ms);
    RunKeepsCustody(INIT, Events(aead, key, ms));
    assert ForAccount(Now(aead, key, ms).state, Now(aead, key, ms).state.db.accounts[id]);
  }
}
