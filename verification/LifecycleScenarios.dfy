/** Runs showing that the conditions of the lifecycle results are needed: each can be violated. */
module LifecycleScenarios {
  import opened Prelude
  import opened Tables
  import opened TokenRules
  import opened Lifecycle
  import opened LifecycleCustody
  import opened LifecycleChain
  import opened LifecycleAccounts
  import opened LifecyclePromise
  import opened LifecycleSolo
  import opened LifecycleDisconnect
  import opened LifecycleClient

  lemma OneMoreClean(s: State, es: seq<Event>, e: Event)
    requires IsRun(s, es) && Enabled(Run(s, es), e) && Clean(s, es) && !StaleBump(Run(s, es), e)
    ensures IsRun(s, es + [e]) && Run(s, es + [e]) == Apply(Run(s, es), e) && Clean(s, es + [e])
  {
    OneMore(s, es, e);
    assert (es + [e])[..|es + [e]| - 1] == es;
  }

  // ---- Any pending bump can go stale ------------------------------------------------

  /** A cache hit about to write back the token it read, its account's lock free. */
  predicate PendingBump(s: State, t: TaskId, id: string) {
    && t in s.tasks && s.tasks[t].BumpWrite? && s.tasks[t].id == id
    && id in s.db.accounts && id in s.db.tokens && s.db.tokens[id].refresh == s.tasks[t].read.refresh
    && (id in s.locks ==> s.locks[id].None?)
  }

  lemma PushClean(s: State, es: seq<Event>, m: State, e: Event, m': State)
    requires IsRun(s, es) && Clean(s, es) && Run(s, es) == m && Enabled(m, e) && !StaleBump(m, e) && Apply(m, e) == m'
    ensures IsRun(s, es + [e]) && Clean(s, es + [e]) && Run(s, es + [e]) == m'
  {
    OneMoreClean(s, es, e);
  }

  /** Take the lock and read the token: the refresh is about to present it. */
  lemma ReachExchange(s: State, u: TaskId, id: string) returns (es: seq<Event>)
    requires u !in s.tasks && id in s.db.tokens && (id in s.locks ==> s.locks[id].None?)
    ensures IsRun(s, es) && Clean(s, es)
    ensures Run(s, es) == s.(locks := s.locks[id := Some(u)],
                             tasks := s.tasks[u := Exchange(id, Return, s.db.tokens[id])])
  {
    var e0, e := Begin(u, LockEntry(id, Return)), Act(u, Nothing);
    var s0 := s.(tasks := s.tasks[u := LockEntry(id, Return)]);
    var s1 := s.(locks := s.locks[id := None], tasks := s.tasks[u := LockWait(id, Return)]);
    var s2 := s.(locks := s.locks[id := Some(u)], tasks := s.tasks[u := RefreshRead(id, Return)]);
    var s3 := s.(locks := s.locks[id := Some(u)], tasks := s.tasks[u := Exchange(id, Return, s.db.tokens[id])]);
    es := [];
    PushClean(s, es, s, e0, s0);
    es := es + [e0];
    assert s0.tasks[u := LockWait(id, Return)] == s1.tasks;
    assert s1.locks == if id in s.locks then s.locks else s.locks[id := None];
    PushClean(s, es, s0, e, s1);
    es := es + [e];
    assert s1.tasks[u := RefreshRead(id, Return)] == s2.tasks && s1.locks[id := Some(u)] == s2.locks;
    PushClean(s, es, s1, e, s2);
    es := es + [e];
    assert s2.tasks[u := Exchange(id, Return, s.db.tokens[id])] == s3.tasks;
    PushClean(s, es, s2, e, s3);
    es := es + [e];
  }

  /** About to present the token the bump read: rotated and written, the bump is stale. */
  lemma RotationMakesStale(s: State, t: TaskId, u: TaskId, id: string, c: Choice)
    requires Custody(s) && t in s.tasks && s.tasks[t].BumpWrite? && s.tasks[t].id == id && id in s.db.accounts
    requires id in s.db.tokens
    requires s.db.tokens[id].refresh == s.tasks[t].read.refresh && u in s.tasks
    requires s.tasks[u] == Exchange(id, Return, s.db.tokens[id])
    requires id in s.locks && s.locks[id] == Some(u)
    requires CanAct(s, s.tasks[u], c) && c.reply.Granted? && Rotates(s.db.tokens[id], c.reply.grant)
    ensures Enabled(Apply(s, Act(u, c)), Act(u, Nothing))
    ensures Enabled(Apply(Apply(s, Act(u, c)), Act(u, Nothing)), Act(t, Nothing))
    ensures StaleBump(Apply(Apply(s, Act(u, c)), Act(u, Nothing)), Act(t, Nothing))
  {
    var s1 := Apply(s, Act(u, c));
    assert s1.tasks[u].RefreshWrite? && s1.tasks[u].id == id && t in Overtaken(s1, id);
  }

  /** The provider may always rotate. */
  lemma CanRotate(s: State, u: TaskId, id: string) returns (c: Choice)
    requires Custody(s) && id in s.db.tokens && u in s.tasks && s.tasks[u] == Exchange(id, Return, s.db.tokens[id])
    ensures c.Answer? && c.reply.Granted? && CanAct(s, s.tasks[u], c) && Rotates(s.db.tokens[id], c.reply.grant)
  {
    var current := s.db.tokens[id];
    assert Belongs(s, id, current);
    var access := UnusedSecret(s.provider.accessOf.Keys);
    var refresh := UnusedSecret(s.provider.refreshOf.Keys);
    c := Answer(Granted(Grant(access, Some(refresh), None, None)), s.provider.refreshOf[current.refresh]);
  }

  lemma RotateAndWrite(s: State, t: TaskId, u: TaskId, id: string) returns (es: seq<Event>)
    requires Custody(s) && t in s.tasks && s.tasks[t].BumpWrite? && s.tasks[t].id == id
    requires id in s.db.accounts && id in s.db.tokens && s.db.tokens[id].refresh == s.tasks[t].read.refresh
    requires u in s.tasks && s.tasks[u] == Exchange(id, Return, s.db.tokens[id])
    requires id in s.locks && s.locks[id] == Some(u)
    ensures IsRun(s, es) && Clean(s, es)
    ensures Enabled(Run(s, es), Act(t, Nothing)) && StaleBump(Run(s, es), Act(t, Nothing))
  {
    var c := CanRotate(s, u, id);
    RotationMakesStale(s, t, u, id, c);
    var s1 := Apply(s, Act(u, c));
    PushClean(s, [], s, Act(u, c), s1);
    PushClean(s, [] + [Act(u, c)], s1, Act(u, Nothing), Apply(s1, Act(u, Nothing)));
    es := [] + [Act(u, c)] + [Act(u, Nothing)];
  }

  /** One rotating refresh of the same account, written meanwhile, makes the bump stale. */
  lemma PendingBumpCanGoStale(s: State, t: TaskId, u: TaskId, id: string) returns (es: seq<Event>)
    requires Custody(s) && PendingBump(s, t, id) && u !in s.tasks
    ensures IsRun(s, es) && Clean(s, es)
    ensures Enabled(Run(s, es), Act(t, Nothing)) && StaleBump(Run(s, es), Act(t, Nothing))
  {
    es := ReachExchange(s, u, id);
    RunKeepsCustody(s, es);
    var fs := RotateAndWrite(Run(s, es), t, u, id);
    CleanRunsJoin(s, es, fs);
    es := es + fs;
  }

  /** After a stale bump, the next refresh presents a spent token. */
  lemma StaleBumpIsPresented(s: State, u: TaskId, id: string) returns (es: seq<Event>)
    requires id in s.db.tokens && Spent(s, s.db.tokens[id]) && u !in s.tasks && (id in s.locks ==> s.locks[id].None?)
    ensures IsRun(s, es) && u in Run(s, es).tasks && Run(s, es).tasks[u].Exchange?
    ensures Spent(Run(s, es), Run(s, es).tasks[u].current)
  {
    es := ReachExchange(s, u, id);
  }

  // ---- Reachable examples -----------------------------------------------------------

  const ID := "account-1"
  const BOB := "bob@outlook.com"
  const ROW := Account(ID, "tenant", BOB, None, Active, 0, 0)
  const FIRST := StoredToken([1], [1], None, Some(10 * HOUR), Some(0), 0)

  const GRANT := Grant(FIRST.access, Some(FIRST.refresh), None, FIRST.expiresAt)

  /** Task 0 at `phase`, before and after the grant, the lookup and the insert left their marks. */
  ghost function Consenting(phase: Phase, granted: bool, lookedUp: bool, inserted: bool): State {
    State(Db(if inserted then map[ID := ROW] else map[], map[]), map[], map[0 := phase], 0,
          if granted then Provider(map[FIRST.access := BOB], map[FIRST.refresh := BOB], {})
          else Provider(map[], map[], {}),
          History(if lookedUp then map[ID := Who("tenant", BOB)] else map[], map[], {}, {}))
  }

  /** One account connected by task 0, nothing else going on. */
  ghost const CONNECTED: State :=
    State(Db(map[ID := ROW], map[ID := FIRST]), map[], map[0 := Finished], 0,
          Provider(map[FIRST.access := BOB], map[FIRST.refresh := BOB], {}),
          History(map[ID := Who("tenant", BOB)], map[FIRST.refresh := ID], {}, {}))

  lemma ConsentSteps()
    ensures Apply(INIT, Begin(0, CodeExchange("tenant"))) == Consenting(CodeExchange("tenant"), false, false, false)
    ensures var s, e := Consenting(CodeExchange("tenant"), false, false, false), Act(0, Answer(Granted(GRANT), BOB));
            Enabled(s, e) && Apply(s, e) == Consenting(Resolve("tenant", GRANT, FIRST.refresh), true, false, false)
    ensures var s, e := Consenting(Resolve("tenant", GRANT, FIRST.refresh), true, false, false),
                        Act(0, Profile(true, None));
            && Enabled(s, e)
            && Apply(s, e) == Consenting(Lookup("tenant", BOB, None, GRANT, FIRST.refresh), true, false, false)
  {
  }

  lemma RowSteps()
    ensures var s, e := Consenting(Lookup("tenant", BOB, None, GRANT, FIRST.refresh), true, false, false),
                        Act(0, Row(ID));
            Enabled(s, e) && Apply(s, e) == Consenting(CheckRow(ROW, FIRST), true, true, false)
    ensures var s, e := Consenting(CheckRow(ROW, FIRST), true, true, false), Act(0, Nothing);
            Enabled(s, e) && Apply(s, e) == Consenting(CreateRow(ROW, FIRST), true, true, false)
  {
    var s := Consenting(Lookup("tenant", BOB, None, GRANT, FIRST.refresh), true, false, false);
    assert Matches(s.db, "tenant", BOB) == {};
  }

  lemma InsertSteps()
    ensures var s, e := Consenting(CreateRow(ROW, FIRST), true, true, false), Act(0, Nothing);
            Enabled(s, e) && Apply(s, e) == Consenting(ConsentWrite(ROW, FIRST), true, true, true)
    ensures var s, e := Consenting(ConsentWrite(ROW, FIRST), true, true, true), Act(0, Nothing);
            Enabled(s, e) && Apply(s, e) == CONNECTED
  {
    assert Raced(Consenting(CreateRow(ROW, FIRST), true, true, false), ROW) - {0} == {};
  }

  lemma FirstConnection() returns (es: seq<Event>)
    ensures IsRun(INIT, es) && Clean(INIT, es) && Run(INIT, es) == CONNECTED
  {
    ConsentSteps();
    RowSteps();
    InsertSteps();
    var e0, e1, e2 := Begin(0, CodeExchange("tenant")), Act(0, Answer(Granted(GRANT), BOB)),
        Act(0, Profile(true, None));
    var e3, e := Act(0, Row(ID)), Act(0, Nothing);
    var s1 := Consenting(CodeExchange("tenant"), false, false, false);
    var s2 := Consenting(Resolve("tenant", GRANT, FIRST.refresh), true, false, false);
    var s3 := Consenting(Lookup("tenant", BOB, None, GRANT, FIRST.refresh), true, false, false);
    var s4 := Consenting(CheckRow(ROW, FIRST), true, true, false);
    var s5 := Consenting(CreateRow(ROW, FIRST), true, true, false);
    var s6 := Consenting(ConsentWrite(ROW, FIRST), true, true, true);
    es := [];
    PushClean(INIT, es, INIT, e0, s1);
    es := es + [e0];
    PushClean(INIT, es, s1, e1, s2);
    es := es + [e1];
    PushClean(INIT, es, s2, e2, s3);
    es := es + [e2];
    PushClean(INIT, es, s3, e3, s4);
    es := es + [e3];
    PushClean(INIT, es, s4, e, s5);
    es := es + [e];
    PushClean(INIT, es, s5, e, s6);
    es := es + [e];
    PushClean(INIT, es, s6, e, CONNECTED);
    es := es + [e];
  }

  lemma {:induction false} CleanRunsJoin(s: State, es: seq<Event>, fs: seq<Event>)
    requires IsRun(s, es) && Clean(s, es) && IsRun(Run(s, es), fs) && Clean(Run(s, es), fs)
    ensures IsRun(s, es + fs) && Run(s, es + fs) == Run(Run(s, es), fs) && Clean(s, es + fs)
  {
    if fs == [] {
      assert es + fs == es;
    } else {
      CleanRunsJoin(s, es, fs[..|fs| - 1]);
      RunsJoin(s, es, fs);
      assert (es + fs)[..|es + fs| - 1] == es + fs[..|fs| - 1];
    }
  }

  /** CONNECTED seven hours later, task 1 between the read and the write of its cache hit. */
  ghost const BUMPING: State := CONNECTED.(now := 7 * HOUR, tasks := map[0 := Finished, 1 := BumpWrite(ID, FIRST)])

  lemma BumpSteps()
    ensures var s := CONNECTED.(now := 7 * HOUR);
            && Enabled(CONNECTED, Wait(7 * HOUR)) && Apply(CONNECTED, Wait(7 * HOUR)) == s
            && Enabled(s, Begin(1, GetRead(ID)))
            && Apply(s, Begin(1, GetRead(ID))) == s.(tasks := map[0 := Finished, 1 := GetRead(ID)])
            && Enabled(s.(tasks := map[0 := Finished, 1 := GetRead(ID)]), Act(1, Nothing))
            && Apply(s.(tasks := map[0 := Finished, 1 := GetRead(ID)]), Act(1, Nothing)) == BUMPING
  {
    assert CacheHit(FIRST, 7 * HOUR) && BumpDue(FIRST, 7 * HOUR);
  }

  /** A cache hit pending, from the empty database. */
  lemma ReachBumping() returns (es: seq<Event>)
    ensures IsRun(INIT, es) && Clean(INIT, es) && Run(INIT, es) == BUMPING
  {
    es := FirstConnection();
    BumpSteps();
    var s := CONNECTED.(now := 7 * HOUR);
    PushClean(INIT, es, CONNECTED, Wait(7 * HOUR), s);
    es := es + [Wait(7 * HOUR)];
    PushClean(INIT, es, s, Begin(1, GetRead(ID)), s.(tasks := map[0 := Finished, 1 := GetRead(ID)]));
    es := es + [Begin(1, GetRead(ID))];
    PushClean(INIT, es, s.(tasks := map[0 := Finished, 1 := GetRead(ID)]), Act(1, Nothing), BUMPING);
    es := es + [Act(1, Nothing)];
  }

  /**
   * The chain does break: a clean run from the empty database after which a bump that
   * straddled a refresh stores a spent token, and the refresh that then presents it.
   */
  lemma ChainCanBreak() returns (es: seq<Event>, e: Event)
    ensures IsRun(INIT, es) && ChainThroughout(INIT, es) && Enabled(Run(INIT, es), e)
    ensures StaleBump(Run(INIT, es), e) && !Chain(Apply(Run(INIT, es), e))
  {
    es := ReachBumping();
    RunIsSound(es);
    var fs := PendingBumpCanGoStale(BUMPING, 1, 2, ID);
    CleanRunsJoin(INIT, es, fs);
    es := es + fs;
    e := Act(1, Nothing);
    ChainHoldsIffClean(es);
    RunIsSound(es);
    StepKeepsChainIff(Run(INIT, es), e);
  }

  lemma InsertStep(s: State, t: TaskId)
    requires t in s.tasks && s.tasks[t].CreateRow? && CanCreate(s.db, s.tasks[t].account)
    ensures Enabled(s, Act(t, Nothing)) && Apply(s, Act(t, Nothing)).db == Create(s.db, s.tasks[t].account)
    ensures forall u | u in s.tasks && u != t ::
              u in Apply(s, Act(t, Nothing)).tasks && Apply(s, Act(t, Nothing)).tasks[u] == s.tasks[u]
  {
  }

  /** Two consents past their lookups for one mailbox spelled in two ways make two accounts of it. */
  lemma OverlapCanTwin(s: State, t: TaskId, u: TaskId)
    requires t in s.tasks && u in s.tasks && s.tasks[t].CreateRow? && s.tasks[u].CreateRow?
    requires var a, b := s.tasks[t].account, s.tasks[u].account;
             SameMailbox(a, b) && a.email != b.email && a.id != b.id && CanCreate(s.db, a) && CanCreate(s.db, b)
    ensures var es := [Act(t, Nothing), Act(u, Nothing)];
            IsRun(s, es) && !FoldUnique(Run(s, es))
  {
    var e, f := Act(t, Nothing), Act(u, Nothing);
    var a, b := s.tasks[t].account, s.tasks[u].account;
    InsertStep(s, t);
    OneMore(s, [], e);
    assert [] + [e] == [e] && [e] + [f] == [e, f];
    var m := Run(s, [e]);
    assert CanCreate(m.db, b);
    InsertStep(m, u);
    OneMore(s, [e], f);
    var s' := Run(s, [e, f]);
    assert s'.db.accounts[a.id] == a && s'.db.accounts[b.id] == b;
  }

  /** From its lookup on, a consent for an unknown mailbox reaches its insert. */
  lemma ReachInsert(s: State, t: TaskId, tenant: string, email: string) returns (es: seq<Event>)
    requires Custody(s) && t in s.tasks && s.tasks[t].Lookup? && s.tasks[t].tenant == tenant
    requires s.tasks[t].email == email
    requires Matches(s.db, tenant, email) == {}
    ensures IsRun(s, es)
    ensures var s' := Run(s, es);
            && s'.db == s.db && t in s'.tasks && s'.tasks[t].CreateRow? && CanCreate(s.db, s'.tasks[t].account)
            && s'.tasks[t].account.tenant == tenant && s'.tasks[t].account.email == email
            && s'.tasks[t].account.id !in s.history.identity
            && s'.tasks[t].account.id in s'.history.identity
            && forall u | u in s.tasks && u != t :: u in s'.tasks && s'.tasks[u] == s.tasks[u]
  {
    var id := LifecycleLocks.UnusedId(s.history.identity.Keys);
    var p := s.tasks[t];
    FoundOrInsertable(s, tenant, email, p.name, id);
    LookupStep(s, t, tenant, email, p.name, p.grant, p.refresh, id);
    OnlyItsTaskMoves(s, t, p, Row(id));
    var s1 := Apply(s, Act(t, Row(id)));
    Push(s, [], s, Act(t, Row(id)), s1);
    var a := s1.tasks[t].account;
    CheckStep(s1, t, a, s1.tasks[t].token);
    Push(s, [] + [Act(t, Row(id))], s1, Act(t, Nothing), Goto(s1, t, CreateRow(a, s1.tasks[t].token)));
    es := [] + [Act(t, Row(id))] + [Act(t, Nothing)];
  }

  /** Whatever else is there, a mailbox new to the tenant can end up as two accounts of two spellings. */
  lemma TwinsCanArise(s: State, t: TaskId, u: TaskId, tenant: string, one: string, other: string)
    returns (es: seq<Event>)
    requires Custody(s) && t != u && t !in s.tasks && u !in s.tasks
    requires Lower(one) == Lower(other) && one != other && Matches(s.db, tenant, one) == {}
    ensures IsRun(s, es) && !FoldUnique(Run(s, es))
  {
    assert Matches(s.db, tenant, other) == {};
    var grant, refresh;
    es, grant, refresh := SoloToLookup(s, t, tenant, one, None);
    var s1 := Run(s, es);
    var fs;
    fs, grant, refresh := SoloToLookup(s1, u, tenant, other, None);
    RunsJoin(s, es, fs);
    es := es + fs;
    RunKeepsCustody(s, es);
    var s2 := Run(s, es);
    fs := ReachInsert(s2, t, tenant, one);
    RunsJoin(s, es, fs);
    es := es + fs;
    RunKeepsCustody(s, es);
    var s3 := Run(s, es);
    fs := ReachInsert(s3, u, tenant, other);
    RunsJoin(s, es, fs);
    es := es + fs;
    OverlapCanTwin(Run(s, es), t, u);
    fs := [Act(t, Nothing), Act(u, Nothing)];
    RunsJoin(s, es, fs);
    es := es + fs;
  }

  /** From the empty database: one mailbox, two spellings, two accounts. */
  lemma TwinsFromScratch() returns (es: seq<Event>)
    ensures IsRun(INIT, es) && !FoldUnique(Run(INIT, es))
  {
    var other := "Bob@outlook.com";
    assert Lower(BOB) == Lower(other) by {
      assert forall i | 0 <= i < |BOB| :: Lower(BOB)[i] == Lower(other)[i];
    }
    es := TwinsCanArise(INIT, 0, 1, "tenant", BOB, other);
  }

  // ---- Disconnected, with a token ---------------------------------------------------

  /** Every disconnected account can be reconnected, and is then disconnected with a token. */
  lemma ReconnectionBreaksPromise(s: State, t: TaskId, id: string) returns (es: seq<Event>)
    requires Custody(s) && t !in s.tasks && IsDisconnected(s, id)
    ensures IsRun(s, es) && t in Run(s, es).tasks && Run(s, es).tasks[t] == Finished
    ensures IsDisconnected(Run(s, es), id) && id in Run(s, es).db.tokens && !DisconnectedTokenless(Run(s, es))
  {
    var a := s.db.accounts[id];
    var grant, refresh;
    es, grant, refresh := SoloToLookup(s, t, a.tenant, a.email, None);
    RunKeepsCustody(s, es);
    var s1 := Run(s, es);
    assert id in Matches(s1.db, a.tenant, a.email);
    var fs := SoloLanding(s1, t, a.tenant, a.email, None, grant, refresh, id);
    RunsJoin(s, es, fs);
    es := es + fs;
  }

  /** Every account can be disconnected. */
  lemma AnyoneCanDisconnect(s: State, t: TaskId, id: string) returns (es: seq<Event>)
    requires t !in s.tasks && id in s.db.accounts
    ensures IsRun(s, es) && IsDisconnected(Run(s, es), id)
  {
    var tenant := s.db.accounts[id].tenant;
    var s1, s2 := Goto(s, t, DisconnectGet(tenant, id)), Goto(s, t, DropToken(tenant, id));
    Push(s, [], s, Begin(t, DisconnectGet(tenant, id)), s1);
    assert s1.tasks[t := DropToken(tenant, id)] == s2.tasks;
    Push(s, [] + [Begin(t, DisconnectGet(tenant, id))], s1, Act(t, Nothing), s2);
    es := [] + [Begin(t, DisconnectGet(tenant, id))] + [Act(t, Nothing)];
    var fs := SoloDrop(s2, t, tenant, id);
    RunsJoin(s, es, fs);
    es := es + fs;
  }

  /** From the empty database: connect, disconnect, reconnect. */
  lemma PromiseBreaksFromScratch() returns (es: seq<Event>)
    ensures IsRun(INIT, es) && IsDisconnected(Run(INIT, es), ID) && ID in Run(INIT, es).db.tokens
    ensures !DisconnectedTokenless(Run(INIT, es))
  {
    es := FirstConnection();
    var fs := AnyoneCanDisconnect(CONNECTED, 1, ID);
    RunsJoin(INIT, es, fs);
    es := es + fs;
    RunKeepsCustody(INIT, es);
    var t := FreshTask(Run(INIT, es).tasks.Keys);
    fs := ReconnectionBreaksPromise(Run(INIT, es), t, ID);
    RunsJoin(INIT, es, fs);
    es := es + fs;
  }

  lemma {:induction false} FreshTask(tasks: set<TaskId>) returns (t: TaskId)
    ensures t !in tasks && forall u | u in tasks :: u < t
  {
    if tasks == {} {
      t := 0;
    } else {
      var u :| u in tasks;
      t := FreshTask(tasks - {u});
      t := t + u + 1;
      assert forall x | x in tasks :: x == u || x in tasks - {u};
    }
  }

  // ---- The refused token, sent again ------------------------------------------------

  lemma {:induction false} NoBeginServes(s: State, es: seq<Event>, c: Client)
    requires IsRun(s, es) && forall e | e in es :: !e.Begin?
    ensures Serves(s, es, c)
  {
    if es != [] {
      assert es[|es| - 1] in es && forall e | e in es[..|es| - 1] :: e in es;
      NoBeginServes(s, es[..|es| - 1], c);
    }
  }

  lemma {:induction false} ServingRunsJoin(s: State, es: seq<Event>, fs: seq<Event>, c: Client)
    requires IsRun(s, es) && Serves(s, es, c) && IsRun(Run(s, es), fs) && Serves(Run(s, es), fs, c)
    ensures IsRun(s, es + fs) && Run(s, es + fs) == Run(Run(s, es), fs) && Serves(s, es + fs, c)
  {
    if fs == [] {
      assert es + fs == es;
    } else {
      ServingRunsJoin(s, es, fs[..|fs| - 1], c);
      RunsJoin(s, es, fs);
      assert (es + fs)[..|es + fs| - 1] == es + fs[..|fs| - 1];
    }
  }

  /** The forced refresh, granted without a rotation, while the others rest. */
  lemma ForceRefresh(s: State, c: Client) returns (es: seq<Event>)
    requires Custody(s) && c.Proper() && c.first in s.tasks && s.tasks[c.first].Got? && c.forced !in s.tasks
    requires c.id in s.db.tokens && LockFree(s, c.id)
    ensures IsRun(s, es) && Serves(s, es, c) && Run(s, es).now == s.now && OthersRest(s, Run(s, es), c.forced)
    ensures c.forced in Run(s, es).tasks && Run(s, es).tasks[c.forced] == Finished
    ensures Run(s, es).tasks.Keys == s.tasks.Keys + {c.forced} && c.id in Run(s, es).db.accounts
  {
    es := BeginForced(s, c);
    var m := Run(s, es);
    var acts := ForceServing(m, c);
    ServingRunsJoin(s, es, acts, c);
    es := es + acts;
    RestFromTheStart(s, Run(s, es), c.forced, LockEntry(c.id, Return));
  }

  lemma RestFromTheStart(s: State, s': State, t: TaskId, p: Phase)
    requires t !in s.tasks && OthersRest(Goto(s, t, p), s', t) && s'.tasks.Keys == Goto(s, t, p).tasks.Keys
    ensures OthersRest(s, s', t) && s'.tasks.Keys == s.tasks.Keys + {t}
  {
    forall u | u in s.tasks && u != t ensures u in s'.tasks && s'.tasks[u] == s.tasks[u] {
      assert u in Goto(s, t, p).tasks;
    }
  }

  lemma BeginForced(s: State, c: Client) returns (es: seq<Event>)
    requires Custody(s) && c.Proper() && c.first in s.tasks && s.tasks[c.first].Got? && c.forced !in s.tasks
    ensures IsRun(s, es) && Serves(s, es, c) && Custody(Run(s, es))
    ensures Run(s, es) == Goto(s, c.forced, LockEntry(c.id, Return))
  {
    var begin := Begin(c.forced, LockEntry(c.id, Return));
    PushServing(s, [], s, begin, Goto(s, c.forced, LockEntry(c.id, Return)), c);
    es := [] + [begin];
    RunKeepsCustody(s, es);
  }

  lemma ForceServing(s: State, c: Client) returns (es: seq<Event>)
    requires Custody(s) && c.forced in s.tasks && s.tasks[c.forced] == LockEntry(c.id, Return)
    requires c.id in s.db.tokens && LockFree(s, c.id)
    ensures IsRun(s, es) && Serves(s, es, c) && Run(s, es).now == s.now && OthersRest(s, Run(s, es), c.forced)
    ensures c.forced in Run(s, es).tasks && Run(s, es).tasks[c.forced] == Finished
    ensures Run(s, es).tasks.Keys == s.tasks.Keys && c.id in Run(s, es).db.accounts
  {
    es := ForceFromLock(s, c.forced, c.id);
    NoBeginServes(s, es, c);
    OthersRestMeanwhile(s, es, c.forced);
    KeysRest(s, es, c.forced);
  }

  lemma ForceFromLock(s: State, t: TaskId, id: string) returns (es: seq<Event>)
    requires Custody(s) && t in s.tasks && s.tasks[t] == LockEntry(id, Return) && LockFree(s, id) && id in s.db.tokens
    ensures IsRun(s, es) && OnlyActs(es, t) && t in Run(s, es).tasks && Run(s, es).tasks[t] == Finished
    ensures id in Run(s, es).db.accounts
  {
    es := ToExchange(s, t, id, Return);
    RunKeepsCustody(s, es);
    var s2 := Run(s, es);
    var access := UnusedSecret(s2.provider.accessOf.Keys);
    var answer := M.Answer(Granted(Grant(access, None, None, None)), s2.now);
    var fs := SoloGranted(s2, t, id, Return, answer);
    OnlyActsJoin(es, fs, t);
    RunsJoin(s, es, fs);
    es := es + fs;
  }

  /** Who a run has not begun is none of its business. */
  lemma {:induction false} StrangersServe(s: State, es: seq<Event>, c: Client)
    requires IsRun(s, es)
    requires var tasks := Run(s, es).tasks; c.first !in tasks && c.forced !in tasks && c.again !in tasks
    ensures Serves(s, es, c)
  {
    if es != [] {
      var front, e := es[..|es| - 1], es[|es| - 1];
      if e.Act? {
        OnlyItsTaskMoves(Run(s, front), e.task, Run(s, front).tasks[e.task], e.choice);
      }
      StrangersServe(s, front, c);
    }
  }

  /** The first token of a request, from the cache, its bump written at once. */
  lemma GetFirst(c: Client) returns (es: seq<Event>)
    requires c == Client(ID, 2, 3, 4)
    ensures IsRun(BUMPING, es) && Serves(BUMPING, es, c)
    ensures Run(BUMPING, es) == BUMPING.(db := Upsert(BUMPING.db, ID, Bumped(FIRST, 7 * HOUR)),
                                         tasks := BUMPING.tasks[2 := Got(ID, FIRST.access)])
  {
    assert CacheHit(FIRST, 7 * HOUR) && BumpDue(FIRST, 7 * HOUR);
    var s1, s2 := Goto(BUMPING, 2, GetRead(ID)), Goto(BUMPING, 2, BumpWrite(ID, FIRST));
    var s3 := BUMPING.(db := Upsert(BUMPING.db, ID, Bumped(FIRST, 7 * HOUR)),
                       tasks := BUMPING.tasks[2 := Got(ID, FIRST.access)]);
    PushServing(BUMPING, [], BUMPING, Begin(2, GetRead(ID)), s1, c);
    assert s1.tasks[2 := BumpWrite(ID, FIRST)] == s2.tasks;
    PushServing(BUMPING, [] + [Begin(2, GetRead(ID))], s1, Act(2, Nothing), s2, c);
    assert s2.tasks[2 := Got(ID, FIRST.access)] == s3.tasks;
    PushServing(BUMPING, [] + [Begin(2, GetRead(ID))] + [Act(2, Nothing)], s2, Act(2, Nothing), s3, c);
    es := [] + [Begin(2, GetRead(ID))] + [Act(2, Nothing)] + [Act(2, Nothing)];
  }

  /**
   * From the empty database: a request whose token Graph refuses, whose forced refresh succeeds,
   * and whose retry is handed the refused token again, because another caller's cache hit wrote
   * it back in between.
   */
  lemma RefusedTokenIsSentAgain() returns (es: seq<Event>, c: Client, refused: Secret)
    ensures IsRun(INIT, es) && c.Proper() && Serves(INIT, es, c)
    ensures var tasks := Run(INIT, es).tasks;
            && c.first in tasks && tasks[c.first] == Got(c.id, refused)
            && c.forced in tasks && tasks[c.forced] == Finished
            && c.again in tasks && tasks[c.again] == Got(c.id, refused)
  {
    c := Client(ID, 2, 3, 4);
    refused := FIRST.access;
    es := ReachBumping();
    StrangersServe(INIT, es, c);
    var fs := GetFirst(c);
    ServingRunsJoin(INIT, es, fs, c);
    es := es + fs;
    RunKeepsCustody(INIT, es);
    assert CacheHit(FIRST, 7 * HOUR);
    fs := ForceAndRetry(Run(INIT, es), 1, c);
    ServingRunsJoin(INIT, es, fs, c);
    es := es + fs;
  }

  /** Another caller's cache hit pending with a token still good by its expiry: refresh, bump, retry. */
  lemma ForceAndRetry(s: State, u: TaskId, c: Client) returns (es: seq<Event>)
    requires Custody(s) && c.Proper() && c.id in s.db.tokens && LockFree(s, c.id)
    requires c.first in s.tasks && s.tasks[c.first].Got? && c.forced !in s.tasks && c.again !in s.tasks
    requires u in s.tasks && u != c.first && s.tasks[u].BumpWrite? && s.tasks[u].id == c.id
    requires CacheHit(s.tasks[u].read, s.now)
    ensures IsRun(s, es) && Serves(s, es, c)
    ensures var tasks := Run(s, es).tasks;
            && c.first in tasks && tasks[c.first] == s.tasks[c.first]
            && c.forced in tasks && tasks[c.forced] == Finished
            && c.again in tasks && tasks[c.again] == Got(c.id, s.tasks[u].read.access)
  {
    es := ForceRefresh(s, c);
    var m := Run(s, es);
    assert m.tasks[u] == s.tasks[u] && m.tasks[c.first] == s.tasks[c.first];
    var fs := PendingBumpIsHandedOut(m, u, c);
    ServingRunsJoin(s, es, fs, c);
    es := es + fs;
  }
}
