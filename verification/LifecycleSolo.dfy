/**
 * A task that runs while the others rest does what the sequential `TokenManager` says: the
 * machine of interleavings and the contracts of the class are about the same code.
 */
module LifecycleSolo {
  import opened Prelude
  import opened Tables
  import opened TokenRules
  import opened Lifecycle
  import opened LifecycleLocks
  import opened LifecycleCustody
  import opened LifecycleDisconnect
  import Flows
  import M = TokenManager

  lemma Push(s: State, es: seq<Event>, m: State, e: Event, m': State)
    requires IsRun(s, es) && Run(s, es) == m && Enabled(m, e) && Apply(m, e) == m'
    ensures IsRun(s, es + [e]) && Run(s, es + [e]) == m'
  {
    OneMore(s, es, e);
  }

  /** Steps of one task and nothing else. */
  predicate OnlyActs(es: seq<Event>, t: TaskId) {
    forall e | e in es :: e.Act? && e.task == t
  }

  lemma OnlyActsJoin(es: seq<Event>, fs: seq<Event>, t: TaskId)
    requires OnlyActs(es, t) && OnlyActs(fs, t)
    ensures OnlyActs(es + fs, t)
  {
  }

  /** They leave the others and the clock where they are. */
  lemma {:induction false} OthersRestMeanwhile(s: State, es: seq<Event>, t: TaskId)
    requires IsRun(s, es) && OnlyActs(es, t)
    ensures Run(s, es).now == s.now && OthersRest(s, Run(s, es), t)
  {
    if es != [] {
      var front, e := es[..|es| - 1], es[|es| - 1];
      assert e in es && forall x | x in front :: x in es;
      OthersRestMeanwhile(s, front, t);
      OnlyItsTaskMoves(Run(s, front), t, Run(s, front).tasks[t], e.choice);
    }
  }

  /** And they add no task. */
  lemma {:induction false} KeysRest(s: State, es: seq<Event>, t: TaskId)
    requires IsRun(s, es) && OnlyActs(es, t) && t in s.tasks
    ensures Run(s, es).tasks.Keys == s.tasks.Keys
  {
    if es != [] {
      var front, e := es[..|es| - 1], es[|es| - 1];
      assert e in es && forall x | x in front :: x in es;
      KeysRest(s, front, t);
      OnlyItsTaskMoves(Run(s, front), t, Run(s, front).tasks[t], e.choice);
    }
  }

  predicate LockFree(s: State, id: string) {
    id in s.locks ==> s.locks[id].None?
  }

  /** The provider may answer this to the token stored for the account. */
  predicate CanAnswer(s: State, id: string, reply: Reply) {
    id in s.db.tokens && reply.Granted? ==> FreshGrant(s.provider, reply.grant, Some(s.db.tokens[id].refresh))
  }

  /** From asking for the lock to reading the token. */
  lemma SoloToRead(s: State, t: TaskId, id: string, after: After) returns (es: seq<Event>)
    requires t in s.tasks && s.tasks[t] == LockEntry(id, after) && LockFree(s, id)
    ensures IsRun(s, es) && OnlyActs(es, t)
    ensures Run(s, es) == s.(locks := s.locks[id := Some(t)], tasks := s.tasks[t := RefreshRead(id, after)])
  {
    var e := Act(t, Nothing);
    var s1 := s.(locks := s.locks[id := None], tasks := s.tasks[t := LockWait(id, after)]);
    var s2 := s.(locks := s.locks[id := Some(t)], tasks := s.tasks[t := RefreshRead(id, after)]);
    assert s1.locks == if id in s.locks then s.locks else s.locks[id := None];
    Push(s, [], s, e, s1);
    assert s1.tasks[t := RefreshRead(id, after)] == s2.tasks && s1.locks[id := Some(t)] == s2.locks;
    Push(s, [] + [e], s1, e, s2);
    es := [] + [e] + [e];
  }

  /** And with the token, to presenting it. */
  lemma ToExchange(s: State, t: TaskId, id: string, after: After) returns (es: seq<Event>)
    requires t in s.tasks && s.tasks[t] == LockEntry(id, after) && LockFree(s, id) && id in s.db.tokens
    ensures IsRun(s, es) && OnlyActs(es, t)
    ensures Run(s, es) == s.(locks := s.locks[id := Some(t)],
                             tasks := s.tasks[t := Exchange(id, after, s.db.tokens[id])])
  {
    es := SoloToRead(s, t, id, after);
    var s1 := Run(s, es);
    var s2 := s.(locks := s.locks[id := Some(t)], tasks := s.tasks[t := Exchange(id, after, s.db.tokens[id])]);
    assert s1.tasks[t := Exchange(id, after, s.db.tokens[id])] == s2.tasks;
    Push(s, es, s1, Act(t, Nothing), s2);
    OnlyActsJoin(es, [Act(t, Nothing)], t);
    es := es + [Act(t, Nothing)];
  }

  predicate Refreshed(s: State, s': State, t: TaskId, id: string, after: After, answer: M.Answer) {
    && s'.db == M.RefreshDb(s.db, id, answer) && LockFree(s', id) && t in s'.tasks
    && s'.tasks[t] == AfterUnlock(id, after, M.RefreshResult(s.db, id, answer).Ok?)
  }

  /** The write and the unlock of a granted refresh. */
  lemma SoloWrite(s: State, t: TaskId, id: string, after: After) returns (es: seq<Event>)
    requires t in s.tasks && s.tasks[t].RefreshWrite? && s.tasks[t].id == id && s.tasks[t].after == after
    requires id in s.db.accounts
    ensures IsRun(s, es) && OnlyActs(es, t)
    ensures Run(s, es).db == Upsert(s.db, id, s.tasks[t].renewed) && LockFree(Run(s, es), id)
    ensures t in Run(s, es).tasks && Run(s, es).tasks[t] == AfterUnlock(id, after, true)
  {
    var e := Act(t, Nothing);
    var s1 := Apply(s, e);
    assert s1.tasks[t] == Unlock(id, after, true) && s1.db == Upsert(s.db, id, s.tasks[t].renewed);
    Push(s, [], s, e, s1);
    Push(s, [] + [e], s1, e, Apply(s1, e));
    es := [] + [e] + [e];
  }

  /** The refresh proper, the account's lock held: granted. */
  lemma SoloGranted(s: State, t: TaskId, id: string, after: After, answer: M.Answer) returns (es: seq<Event>)
    requires Custody(s) && t in s.tasks && id in s.db.tokens && s.tasks[t] == Exchange(id, after, s.db.tokens[id])
    requires CanAnswer(s, id, answer.reply) && answer.at == s.now && answer.reply.Granted?
    ensures IsRun(s, es) && OnlyActs(es, t) && Refreshed(s, Run(s, es), t, id, after, answer)
  {
    es := SoloGrant(s, t, id, after, answer);
    var rest := SoloWrite(Run(s, es), t, id, after);
    RunsJoin(s, es, rest);
    OnlyActsJoin(es, rest, t);
    es := es + rest;
    WrittenIsRefreshed(s, Run(s, es), t, id, after, answer);
  }

  lemma SoloGrant(s: State, t: TaskId, id: string, after: After, answer: M.Answer) returns (es: seq<Event>)
    requires Custody(s) && t in s.tasks && id in s.db.tokens && s.tasks[t] == Exchange(id, after, s.db.tokens[id])
    requires CanAnswer(s, id, answer.reply) && answer.at == s.now && answer.reply.Granted?
    ensures IsRun(s, es) && OnlyActs(es, t) && id in s.db.accounts && Run(s, es).db == s.db && t in Run(s, es).tasks
    ensures Run(s, es).tasks[t]
         == RefreshWrite(id, after, s.db.tokens[id], Renewed(s.db.tokens[id], answer.reply.grant, answer.at))
  {
    assert Belongs(s, id, s.db.tokens[id]);
    var e := Act(t, Answer(answer.reply, s.provider.refreshOf[s.db.tokens[id].refresh]));
    assert CanAct(s, Exchange(id, after, s.db.tokens[id]), e.choice);
    ExchangeStep(s, t, id, after, e.choice);
    Push(s, [], s, e, Apply(s, e));
    es := [] + [e];
  }

  lemma WrittenIsRefreshed(s: State, s': State, t: TaskId, id: string, after: After, answer: M.Answer)
    requires id in s.db.tokens && answer.reply.Granted? && LockFree(s', id) && t in s'.tasks
    requires s'.db == Upsert(s.db, id, Renewed(s.db.tokens[id], answer.reply.grant, answer.at))
    requires s'.tasks[t] == AfterUnlock(id, after, true)
    ensures Refreshed(s, s', t, id, after, answer)
  {
  }

  lemma ExchangeStep(s: State, t: TaskId, id: string, after: After, c: Choice)
    requires t in s.tasks && id in s.db.tokens && s.tasks[t] == Exchange(id, after, s.db.tokens[id])
    requires CanAct(s, s.tasks[t], c) && c.reply.Granted?
    ensures var s' := Take(s, t, s.tasks[t], c);
            && s'.db == s.db && t in s'.tasks
            && s'.tasks[t] == RefreshWrite(id, after, s.db.tokens[id], Renewed(s.db.tokens[id], c.reply.grant, s.now))
  {
  }

  lemma RefusedStep(s: State, t: TaskId, id: string, after: After, c: Choice)
    requires t in s.tasks && id in s.db.tokens && s.tasks[t] == Exchange(id, after, s.db.tokens[id])
    requires CanAct(s, s.tasks[t], c) && c.reply.Refused?
    ensures Take(s, t, s.tasks[t], c) == Goto(s, t, Unlock(id, after, false))
  {
  }

  lemma UnlockStep(s: State, t: TaskId, id: string, after: After, ok: bool)
    requires t in s.tasks && s.tasks[t] == Unlock(id, after, ok)
    ensures CanAct(s, s.tasks[t], Nothing)
    ensures Take(s, t, s.tasks[t], Nothing) == Goto(s.(locks := s.locks[id := None]), t, AfterUnlock(id, after, ok))
  {
  }

  /** And refused. */
  lemma SoloRefused(s: State, t: TaskId, id: string, after: After, answer: M.Answer) returns (es: seq<Event>)
    requires Custody(s) && t in s.tasks && id in s.db.tokens && s.tasks[t] == Exchange(id, after, s.db.tokens[id])
    requires answer.reply.Refused?
    ensures IsRun(s, es) && OnlyActs(es, t) && Refreshed(s, Run(s, es), t, id, after, answer)
  {
    es := SoloRefusal(s, t, id, after);
    var rest := SoloUnlock(Run(s, es), t, id, after, false);
    RunsJoin(s, es, rest);
    OnlyActsJoin(es, rest, t);
    es := es + rest;
  }

  lemma SoloRefusal(s: State, t: TaskId, id: string, after: After) returns (es: seq<Event>)
    requires Custody(s) && t in s.tasks && id in s.db.tokens && s.tasks[t] == Exchange(id, after, s.db.tokens[id])
    ensures IsRun(s, es) && OnlyActs(es, t) && Run(s, es) == Goto(s, t, Unlock(id, after, false))
  {
    assert Belongs(s, id, s.db.tokens[id]);
    var c := Answer(Refused, s.provider.refreshOf[s.db.tokens[id].refresh]);
    RefusedStep(s, t, id, after, c);
    Push(s, [], s, Act(t, c), Goto(s, t, Unlock(id, after, false)));
    es := [] + [Act(t, c)];
  }

  lemma SoloUnlock(s: State, t: TaskId, id: string, after: After, ok: bool) returns (es: seq<Event>)
    requires t in s.tasks && s.tasks[t] == Unlock(id, after, ok)
    ensures IsRun(s, es) && OnlyActs(es, t) && Run(s, es).db == s.db
    ensures LockFree(Run(s, es), id) && t in Run(s, es).tasks && Run(s, es).tasks[t] == AfterUnlock(id, after, ok)
  {
    UnlockStep(s, t, id, after, ok);
    Push(s, [], s, Act(t, Nothing), Goto(s.(locks := s.locks[id := None]), t, AfterUnlock(id, after, ok)));
    es := [] + [Act(t, Nothing)];
  }

  lemma SoloExchange(s: State, t: TaskId, id: string, after: After, answer: M.Answer) returns (es: seq<Event>)
    requires Custody(s) && t in s.tasks && id in s.db.tokens && s.tasks[t] == Exchange(id, after, s.db.tokens[id])
    requires CanAnswer(s, id, answer.reply) && answer.at >= s.now
    ensures IsRun(s, es) && Refreshed(s, Run(s, es), t, id, after, answer)
  {
    var wait := [] + [Wait(answer.at)];
    Push(s, [], s, Wait(answer.at), s.(now := answer.at));
    RunKeepsCustody(s, wait);
    var rest;
    if answer.reply.Granted? {
      rest := SoloGranted(s.(now := answer.at), t, id, after, answer);
    } else {
      rest := SoloRefused(s.(now := answer.at), t, id, after, answer);
    }
    RunsJoin(s, wait, rest);
    es := wait + rest;
  }

  /** `refresh_account` from its lock to its end. */
  lemma SoloFromLock(s: State, t: TaskId, id: string, after: After, answer: M.Answer) returns (es: seq<Event>)
    requires Custody(s) && t in s.tasks && s.tasks[t] == LockEntry(id, after) && LockFree(s, id)
    requires CanAnswer(s, id, answer.reply) && answer.at >= s.now
    ensures IsRun(s, es) && Refreshed(s, Run(s, es), t, id, after, answer)
  {
    es := SoloToRead(s, t, id, after);
    var s1 := Run(s, es);
    var s2 := Apply(s1, Act(t, Nothing));
    Push(s, es, s1, Act(t, Nothing), s2);
    es := es + [Act(t, Nothing)];
    if id in s.db.tokens {
      RunKeepsCustody(s, es);
      var rest := SoloExchange(s2, t, id, after, answer);
      RunsJoin(s, es, rest);
      es := es + rest;
    } else {
      Push(s, es, s2, Act(t, Nothing), Apply(s2, Act(t, Nothing)));
      es := es + [Act(t, Nothing)];
    }
  }

  /** `refresh_account` by itself: the tables and the outcome the class promises. */
  lemma SoloRefresh(s: State, t: TaskId, id: string, answer: M.Answer) returns (es: seq<Event>)
    requires Custody(s) && t !in s.tasks && LockFree(s, id) && CanAnswer(s, id, answer.reply) && answer.at >= s.now
    ensures IsRun(s, es) && Run(s, es).db == M.RefreshDb(s.db, id, answer) && t in Run(s, es).tasks
    ensures Run(s, es).tasks[t] == if M.RefreshResult(s.db, id, answer).Ok? then Finished else Failed
  {
    var e := Begin(t, LockEntry(id, Return));
    Push(s, [], s, e, Goto(s, t, LockEntry(id, Return)));
    es := [] + [e];
    RunKeepsCustody(s, es);
    var rest := SoloFromLock(Run(s, es), t, id, Return, answer);
    RunsJoin(s, es, rest);
    es := es + rest;
  }

  /** `get_access_token` by itself: the tables and the token the class promises. */
  lemma SoloGet(s: State, t: TaskId, id: string, answer: M.Answer) returns (es: seq<Event>)
    requires Custody(s) && t !in s.tasks && LockFree(s, id) && CanAnswer(s, id, answer.reply) && answer.at >= s.now
    ensures IsRun(s, es) && Run(s, es).db == M.GetDb(s.db, id, s.now, answer) && t in Run(s, es).tasks
    ensures Run(s, es).tasks[t] == match M.GetResult(s.db, id, s.now, answer)
                                   case Ok(access) => Got(id, access)
                                   case Err(_) => Failed
  {
    var begin, e := Begin(t, GetRead(id)), Act(t, Nothing);
    var s1 := Goto(s, t, GetRead(id));
    var s2 := Apply(s1, e);
    Push(s, [], s, begin, s1);
    Push(s, [] + [begin], s1, e, s2);
    es := [] + [begin] + [e];
    if M.Hit(s.db, id, s.now) {
      if BumpDue(s.db.tokens[id], s.now) {
        Push(s, es, s2, e, Apply(s2, e));
        es := es + [e];
      }
    } else {
      RunKeepsCustody(s, es);
      var rest := SoloFromLock(s2, t, id, ReadBack, answer);
      RunsJoin(s, es, rest);
      es := es + rest;
      if M.RefreshResult(s.db, id, answer).Ok? {
        var s3 := Run(s, es);
        assert id in s.db.accounts;
        Push(s, es, s3, e, Apply(s3, e));
        es := es + [e];
      }
    }
  }

  // ---- Batches ----------------------------------------------------------------------

  /** A refresh at this moment, granted or refused as wished: the provider can always grant something new. */
  lemma SoloAtOnce(s: State, t: TaskId, id: string, after: After, granted: bool)
    returns (es: seq<Event>, answer: M.Answer)
    requires Custody(s) && t in s.tasks && s.tasks[t] == LockEntry(id, after) && LockFree(s, id)
    ensures IsRun(s, es) && OnlyActs(es, t) && Refreshed(s, Run(s, es), t, id, after, answer)
    ensures answer.at == s.now && answer.reply.Granted? == granted
  {
    var access := UnusedSecret(s.provider.accessOf.Keys);
    answer := M.Answer(if granted then Granted(Grant(access, None, None, None)) else Refused, s.now);
    if id in s.db.tokens {
      es := ToExchange(s, t, id, after);
      RunKeepsCustody(s, es);
      var rest;
      if granted {
        rest := SoloGranted(Run(s, es), t, id, after, answer);
      } else {
        rest := SoloRefused(Run(s, es), t, id, after, answer);
      }
      RunsJoin(s, es, rest);
      OnlyActsJoin(es, rest, t);
      es := es + rest;
    } else {
      es := SoloTokenless(s, t, id, after);
    }
  }

  lemma SoloTokenless(s: State, t: TaskId, id: string, after: After) returns (es: seq<Event>)
    requires t in s.tasks && s.tasks[t] == LockEntry(id, after) && LockFree(s, id) && id !in s.db.tokens
    ensures IsRun(s, es) && OnlyActs(es, t) && Run(s, es).db == s.db
    ensures LockFree(Run(s, es), id) && t in Run(s, es).tasks && Run(s, es).tasks[t] == AfterUnlock(id, after, false)
  {
    es := SoloToRead(s, t, id, after);
    var s1, e := Run(s, es), Act(t, Nothing);
    var s2 := Goto(s1, t, Unlock(id, after, false));
    Push(s, es, s1, e, s2);
    OnlyActsJoin(es, [e], t);
    es := es + [e];
    var rest := SoloUnlock(s2, t, id, after, false);
    RunsJoin(s, es, rest);
    OnlyActsJoin(es, rest, t);
    es := es + rest;
  }

  predicate NobodyInside(s: State) {
    forall t | t in s.tasks :: !Critical(s.tasks[t])
  }

  lemma NobodyInsideAfter(s: State, es: seq<Event>, t: TaskId)
    requires NobodyInside(s) && t in s.tasks && IsRun(s, es) && OnlyActs(es, t)
    requires t in Run(s, es).tasks && !Critical(Run(s, es).tasks[t])
    ensures NobodyInside(Run(s, es))
  {
    OthersRestMeanwhile(s, es, t);
    KeysRest(s, es, t);
  }

  lemma {:induction false} InTurnFromTheFirst(db: Db<StoredToken>, ids: seq<string>, answers: string -> M.Answer,
                                              rest: string -> M.Answer)
    requires ids != [] && forall id | id in ids[1..] :: answers(id) == rest(id)
    ensures M.RefreshInTurn(db, ids, answers)
         == M.RefreshInTurn(M.RefreshDb(db, ids[0], answers(ids[0])), ids[1..], rest)
  {
    var db1 := M.RefreshDb(db, ids[0], answers(ids[0]));
    if |ids| > 1 {
      var front, last := ids[..|ids| - 1], ids[|ids| - 1];
      assert front[1..] == ids[1..][..|ids| - 2] && last == ids[1..][|ids| - 2];
      assert forall id | id in front[1..] :: id in ids[1..];
      InTurnFromTheFirst(db, front, answers, rest);
    } else {
      assert ids[..0] == [];
    }
  }

  lemma SoloFirst(s: State, t: TaskId, ids: seq<string>, granted: bool)
    returns (es: seq<Event>, answer: M.Answer)
    requires Custody(s) && Locked(s) && NobodyInside(s) && ids != []
    requires t in s.tasks && s.tasks[t] == NextOf(ids)
    ensures IsRun(s, es) && OnlyActs(es, t) && answer.at == s.now && answer.reply.Granted? == granted
    ensures var s' := Run(s, es);
            && Custody(s') && Locked(s') && NobodyInside(s') && t in s'.tasks && s'.tasks[t] == NextOf(ids[1..])
            && s'.db == M.RefreshDb(s.db, ids[0], answer)
  {
    es, answer := SoloAtOnce(s, t, ids[0], Next(ids[1..]), granted);
    RunKeepsCustody(s, es);
    RunKeepsLocked(s, es);
    NobodyInsideAfter(s, es, t);
  }

  function FirstThen(first: string, answer: M.Answer, rest: string -> M.Answer): string -> M.Answer {
    id => if id == first then answer else rest(id)
  }

  lemma FirstThenAnswers(ids: seq<string>, answer: M.Answer, rest: string -> M.Answer, granted: set<string>)
    requires ids != [] && M.Distinct(ids) && (answer.reply.Granted? <==> ids[0] in granted)
    requires forall id | id in ids[1..] :: rest(id).reply.Granted? <==> id in granted
    ensures var answers := FirstThen(ids[0], answer, rest);
            && answers(ids[0]) == answer && (forall id | id in ids[1..] :: answers(id) == rest(id))
            && (forall id | id in ids :: answers(id).reply.Granted? <==> id in granted)
  {
    assert ids == [ids[0]] + ids[1..];
  }

  /** The loop of a batch: the accounts are refreshed in turn, and no failure stops it. */
  lemma {:induction false} SoloLoop(s: State, t: TaskId, ids: seq<string>, granted: set<string>)
    returns (es: seq<Event>, answers: string -> M.Answer)
    requires Custody(s) && Locked(s) && NobodyInside(s) && M.Distinct(ids)
    requires t in s.tasks && s.tasks[t] == NextOf(ids)
    ensures IsRun(s, es) && OnlyActs(es, t) && t in Run(s, es).tasks && Run(s, es).tasks[t] == Finished
    ensures Run(s, es).db == M.RefreshInTurn(s.db, ids, answers)
    ensures forall id | id in ids :: answers(id).reply.Granted? <==> id in granted
    decreases |ids|
  {
    if ids == [] {
      es, answers := [], _ => M.Answer(Refused, s.now);
    } else {
      var first, answer := SoloFirst(s, t, ids, ids[0] in granted);
      var more, rest := SoloLoop(Run(s, first), t, ids[1..], granted);
      RunsJoin(s, first, more);
      OnlyActsJoin(first, more, t);
      es := first + more;
      answers := FirstThen(ids[0], answer, rest);
      FirstThenAnswers(ids, answer, rest, granted);
      InTurnFromTheFirst(s.db, ids, answers, rest);
    }
  }

  /** The accounts a batch that begins now goes through. */
  function Chosen(s: State, p: Phase): set<string>
    requires p.ListActive? || p.ListStale?
  {
    if p.ListActive? then ActiveIds(s.db) else InactiveIds(s.db, Cutoff(s.now, p.days))
  }

  lemma ListingStep(s: State, t: TaskId, p: Phase, ids: seq<string>)
    requires t in s.tasks && s.tasks[t] == p && (p.ListActive? || p.ListStale?) && IsOrderOf(ids, Chosen(s, p))
    ensures CanAct(s, p, Order(ids)) && Take(s, t, p, Order(ids)) == Goto(s, t, NextOf(ids))
  {
  }

  lemma SoloListing(s: State, t: TaskId, p: Phase, ids: seq<string>) returns (es: seq<Event>)
    requires t !in s.tasks && (p.ListActive? || p.ListStale?) && IsOrderOf(ids, Chosen(s, p))
    ensures IsRun(s, es) && Run(s, es) == Goto(s, t, NextOf(ids))
  {
    var begin, list := Begin(t, p), Act(t, Order(ids));
    var s0 := Goto(s, t, p);
    Push(s, [], s, begin, s0);
    ListingStep(s0, t, p, ids);
    assert Goto(s0, t, NextOf(ids)) == Goto(s, t, NextOf(ids));
    Push(s, [] + [begin], s0, list, Goto(s, t, NextOf(ids)));
    es := [] + [begin] + [list];
  }

  lemma NobodyInsideYet(s: State, t: TaskId, ids: seq<string>)
    requires NobodyInside(s)
    ensures NobodyInside(Goto(s, t, NextOf(ids)))
  {
  }

  lemma InTurnIsEach(s: State, p: Phase, ids: seq<string>, answers: string -> M.Answer)
    requires Consistent(s.db) && (p.ListActive? || p.ListStale?) && IsOrderOf(ids, Chosen(s, p))
    ensures M.RefreshInTurn(s.db, ids, answers) == M.RefreshEach(s.db, Chosen(s, p), answers)
  {
    M.BatchOrderIsInvisible(s.db, ids, answers);
    assert (set id | id in ids) == Chosen(s, p);
  }

  /**
   * `refresh_all` and `refresh_stale` by themselves, in whatever order the accounts are listed
   * and whichever of them the provider renews: the tables the class promises.
   */
  lemma SoloBatch(s: State, t: TaskId, p: Phase, ids: seq<string>, granted: set<string>)
    returns (es: seq<Event>, answers: string -> M.Answer)
    requires Custody(s) && Locked(s) && NobodyInside(s) && t !in s.tasks && (p.ListActive? || p.ListStale?)
    requires IsOrderOf(ids, Chosen(s, p))
    ensures IsRun(s, es) && t in Run(s, es).tasks && Run(s, es).tasks[t] == Finished
    ensures Run(s, es).db == M.RefreshEach(s.db, Chosen(s, p), answers)
    ensures forall id | id in ids :: answers(id).reply.Granted? <==> id in granted
  {
    es := SoloListing(s, t, p, ids);
    RunKeepsCustody(s, es);
    RunKeepsLocked(s, es);
    NobodyInsideYet(s, t, ids);
    var rest;
    rest, answers := SoloLoop(Run(s, es), t, ids, granted);
    RunsJoin(s, es, rest);
    es := es + rest;
    InTurnIsEach(s, p, ids, answers);
  }

  // ---- Consent and disconnect -------------------------------------------------------

  /** The row the lookup may answer with: a matching one, or a fresh id. */
  predicate CanFind(s: State, tenant: string, email: string, id: string) {
    if Matches(s.db, tenant, email) == {} then id !in s.history.identity else id in Matches(s.db, tenant, email)
  }

  function ConsentedBy(grant: Grant, refresh: Secret, email: string, name: Option<string>): M.Consented {
    M.Consented(grant, refresh, M.Identity(email, name))
  }

  lemma LookupStep(s: State, t: TaskId, tenant: string, email: string, name: Option<string>, grant: Grant,
                   refresh: Secret, id: string)
    requires t in s.tasks && s.tasks[t] == Lookup(tenant, email, name, grant, refresh) && CanFind(s, tenant, email, id)
    ensures CanAct(s, s.tasks[t], Row(id))
    ensures var s' := Take(s, t, s.tasks[t], Row(id));
            && s'.db == s.db && s'.now == s.now && t in s'.tasks
            && s'.tasks[t] == CheckRow(LookupAccount(s, tenant, email, name, id),
                                       M.FirstToken(ConsentedBy(grant, refresh, email, name), s.now))
  {
  }

  lemma CheckStep(s: State, t: TaskId, account: Account, token: StoredToken)
    requires t in s.tasks && s.tasks[t] == CheckRow(account, token)
    ensures CanAct(s, s.tasks[t], Nothing)
    ensures Take(s, t, s.tasks[t], Nothing) ==
              Goto(s, t, if Owns(s.db, account.tenant, account.id) then ConsentWrite(account, token)
                         else CreateRow(account, token))
  {
  }

  lemma CreateStep(s: State, t: TaskId, account: Account, token: StoredToken)
    requires t in s.tasks && s.tasks[t] == CreateRow(account, token) && CanCreate(s.db, account)
    ensures CanAct(s, s.tasks[t], Nothing)
    ensures var s' := Take(s, t, s.tasks[t], Nothing);
            s'.db == Create(s.db, account) && t in s'.tasks && s'.tasks[t] == ConsentWrite(account, token)
  {
  }

  lemma ConsentWriteStep(s: State, t: TaskId, account: Account, token: StoredToken)
    requires t in s.tasks && s.tasks[t] == ConsentWrite(account, token) && account.id in s.db.accounts
    ensures CanAct(s, s.tasks[t], Nothing)
    ensures var s' := Take(s, t, s.tasks[t], Nothing);
            s'.db == Upsert(s.db, account.id, token) && t in s'.tasks && s'.tasks[t] == Finished
  {
  }

  lemma CodeExchangeStep(s: State, t: TaskId, tenant: string, email: string, grant: Grant)
    requires t in s.tasks && s.tasks[t] == CodeExchange(tenant) && FreshGrant(s.provider, grant, None)
    requires grant.refresh.Some?
    ensures var c := Answer(Granted(grant), email);
            && CanAct(s, s.tasks[t], c)
            && Take(s, t, s.tasks[t], c) ==
                 Goto(s.(provider := Issue(s.provider, grant, email)), t, Resolve(tenant, grant, grant.refresh.value))
  {
  }

  lemma ResolveStep(s: State, t: TaskId, tenant: string, email: string, name: Option<string>, grant: Grant,
                    refresh: Secret)
    requires t in s.tasks && s.tasks[t] == Resolve(tenant, grant, refresh)
    requires grant.access in s.provider.accessOf && s.provider.accessOf[grant.access] == email
    ensures CanAct(s, s.tasks[t], Profile(true, name))
    ensures Take(s, t, s.tasks[t], Profile(true, name)) == Goto(s, t, Lookup(tenant, email, name, grant, refresh))
  {
  }

  /** A new consent by itself reaches its lookup: the provider may always grant it something new. */
  lemma SoloToLookup(s: State, t: TaskId, tenant: string, email: string, name: Option<string>)
    returns (es: seq<Event>, grant: Grant, refresh: Secret)
    requires t !in s.tasks
    ensures IsRun(s, es)
    ensures var s' := Run(s, es);
            && s'.db == s.db && s'.now == s.now && s'.history == s.history && s'.locks == s.locks
            && s'.tasks == s.tasks[t := Lookup(tenant, email, name, grant, refresh)]
  {
    var access := UnusedSecret(s.provider.accessOf.Keys);
    refresh := UnusedSecret(s.provider.refreshOf.Keys);
    grant := Grant(access, Some(refresh), None, None);
    var begin, resolve := Begin(t, CodeExchange(tenant)), Act(t, Profile(true, name));
    var exchange := Act(t, Answer(Granted(grant), email));
    var s0 := Goto(s, t, CodeExchange(tenant));
    Push(s, [], s, begin, s0);
    CodeExchangeStep(s0, t, tenant, email, grant);
    var s1 := Goto(s0.(provider := Issue(s0.provider, grant, email)), t, Resolve(tenant, grant, refresh));
    Push(s, [] + [begin], s0, exchange, s1);
    ResolveStep(s1, t, tenant, email, name, grant, refresh);
    var s2 := Goto(s1, t, Lookup(tenant, email, name, grant, refresh));
    Push(s, [] + [begin] + [exchange], s1, resolve, s2);
    es := [] + [begin] + [exchange] + [resolve];
    assert s2.tasks == s.tasks[t := Lookup(tenant, email, name, grant, refresh)];
  }

  /** Under custody an account the lookup found is owned, and one it drafted may be inserted. */
  lemma FoundOrInsertable(s: State, tenant: string, email: string, name: Option<string>, id: string)
    requires Custody(s) && CanFind(s, tenant, email, id)
    ensures var a := LookupAccount(s, tenant, email, name, id);
            && a.id == id && (Owns(s.db, a.tenant, id) <==> Matches(s.db, tenant, email) != {})
            && (Matches(s.db, tenant, email) == {} ==> CanCreate(s.db, a))
  {
    var a := LookupAccount(s, tenant, email, name, id);
    if Matches(s.db, tenant, email) == {} {
      assert id in s.db.accounts ==> ForAccount(s, s.db.accounts[id]);
      forall x | x in s.db.accounts && Clashes(s.db.accounts[x], a) ensures x in Matches(s.db, tenant, email) {
      }
    }
  }

  /** The tail of `complete_flow` by itself lands where the class says it lands. */
  lemma SoloLanding(s: State, t: TaskId, tenant: string, email: string, name: Option<string>, grant: Grant,
                    refresh: Secret, id: string)
    returns (es: seq<Event>)
    requires Custody(s) && t in s.tasks && s.tasks[t] == Lookup(tenant, email, name, grant, refresh)
    requires CanFind(s, tenant, email, id)
    ensures IsRun(s, es) && t in Run(s, es).tasks && Run(s, es).tasks[t] == Finished
    ensures M.LandsOn(s.db, Run(s, es).db, LookupAccount(s, tenant, email, name, id), tenant,
                      ConsentedBy(grant, refresh, email, name), id, s.now)
  {
    var a, e := LookupAccount(s, tenant, email, name, id), Act(t, Nothing);
    var token := M.FirstToken(ConsentedBy(grant, refresh, email, name), s.now);
    FoundOrInsertable(s, tenant, email, name, id);
    LookupStep(s, t, tenant, email, name, grant, refresh, id);
    var s1 := Apply(s, Act(t, Row(id)));
    Push(s, [], s, Act(t, Row(id)), s1);
    es := [] + [Act(t, Row(id))];
    CheckStep(s1, t, a, token);
    var s2 := Apply(s1, e);
    Push(s, es, s1, e, s2);
    es := es + [e];
    if !Owns(s.db, a.tenant, id) {
      CreateStep(s2, t, a, token);
      Push(s, es, s2, e, Apply(s2, e));
      s2 := Apply(s2, e);
      es := es + [e];
    }
    ConsentWriteStep(s2, t, a, token);
    Push(s, es, s2, e, Apply(s2, e));
    es := es + [e];
  }

  lemma RefusedCodeStep(s: State, t: TaskId, tenant: string, c: Choice)
    requires t in s.tasks && s.tasks[t] == CodeExchange(tenant) && CanAct(s, s.tasks[t], c)
    requires c.reply.Refused? || c.reply.grant.refresh.None?
    ensures var s' := Take(s, t, s.tasks[t], c); s'.db == s.db && t in s'.tasks && s'.tasks[t] == Failed
  {
  }

  lemma UnknownProfileStep(s: State, t: TaskId, tenant: string, grant: Grant, refresh: Secret)
    requires t in s.tasks && s.tasks[t] == Resolve(tenant, grant, refresh) && grant.access in s.provider.accessOf
    ensures CanAct(s, s.tasks[t], Profile(false, None))
    ensures Take(s, t, s.tasks[t], Profile(false, None)) == Goto(s, t, Failed)
  {
  }

  /** The code is exchanged: for nothing, or for a grant whose access token the profile is asked with. */
  lemma SoloCode(s: State, t: TaskId, tenant: string, reply: Reply, subject: string) returns (es: seq<Event>)
    requires t !in s.tasks && (reply.Granted? ==> FreshGrant(s.provider, reply.grant, None))
    ensures IsRun(s, es) && Run(s, es).db == s.db && t in Run(s, es).tasks
    ensures reply.Refused? || reply.grant.refresh.None? ==> Run(s, es).tasks[t] == Failed
    ensures reply.Granted? && reply.grant.refresh.Some? ==>
              Run(s, es) == Goto(s.(provider := Issue(s.provider, reply.grant, subject)), t,
                                 Resolve(tenant, reply.grant, reply.grant.refresh.value))
  {
    var begin, e := Begin(t, CodeExchange(tenant)), Act(t, Answer(reply, subject));
    var s0 := Goto(s, t, CodeExchange(tenant));
    Push(s, [], s, begin, s0);
    if reply.Refused? || reply.grant.refresh.None? {
      RefusedCodeStep(s0, t, tenant, e.choice);
      Push(s, [] + [begin], s0, e, Apply(s0, e));
    } else {
      CodeExchangeStep(s0, t, tenant, subject, reply.grant);
      var s1 := Goto(s.(provider := Issue(s.provider, reply.grant, subject)), t,
                     Resolve(tenant, reply.grant, reply.grant.refresh.value));
      assert s1.tasks == s0.tasks[t := Resolve(tenant, reply.grant, reply.grant.refresh.value)];
      Push(s, [] + [begin], s0, e, s1);
    }
    es := [] + [begin] + [e];
  }

  /** Then the profile is resolved, or the consent fails. */
  lemma SoloProfile(s: State, t: TaskId, tenant: string, grant: Grant, refresh: Secret, profile: Result<M.Identity,
                    AppError>) returns (es: seq<Event>)
    requires t in s.tasks && s.tasks[t] == Resolve(tenant, grant, refresh) && grant.access in s.provider.accessOf
    requires profile.Ok? ==> profile.value.email == s.provider.accessOf[grant.access]
    ensures IsRun(s, es)
    ensures Run(s, es) ==
              Goto(s, t, if profile.Err? then Failed
                         else Lookup(tenant, profile.value.email, profile.value.displayName, grant, refresh))
  {
    var e := Act(t, if profile.Err? then Profile(false, None) else Profile(true, profile.value.displayName));
    if profile.Err? {
      UnknownProfileStep(s, t, tenant, grant, refresh);
    } else {
      ResolveStep(s, t, tenant, profile.value.email, profile.value.displayName, grant, refresh);
    }
    Push(s, [], s, e, Apply(s, e));
    es := [] + [e];
  }

  /**
   * All of `complete_flow` by itself, after its flow was taken: whatever the provider answers,
   * the tables and the outcome are those the class promises.
   */
  lemma SoloConsent(s: State, t: TaskId, flow: Flows.PendingFlow, provider: M.Provider, subject: string, id: string)
    returns (es: seq<Event>)
    requires Custody(s) && t !in s.tasks
    requires var reply := provider.exchange(flow.verifier);
             reply.Granted? ==>
               && FreshGrant(s.provider, reply.grant, None)
               && var profile := provider.profile(reply.grant.access);
                  profile.Ok? ==> profile.value.email == subject && CanFind(s, flow.tenant, subject, id)
    ensures IsRun(s, es) && t in Run(s, es).tasks
    ensures var reply, s' := provider.exchange(flow.verifier), Run(s, es);
            if reply.Refused? || reply.grant.refresh.None? || provider.profile(reply.grant.access).Err?
            then s'.tasks[t] == Failed && s'.db == s.db
            else
              var grant, profile := reply.grant, provider.profile(reply.grant.access).value;
              && s'.tasks[t] == Finished
              && s'.db.tokens == s.db.tokens[id := StoredToken(grant.access, grant.refresh.value, grant.scope,
                                                               grant.expiresAt, Some(s.now), s.now)]
              && M.LandsOn(s.db, s'.db, LookupAccount(s, flow.tenant, subject, profile.displayName, id), flow.tenant,
                           M.Consented(grant, grant.refresh.value, profile), id, s.now)
  {
    var reply := provider.exchange(flow.verifier);
    es := SoloCode(s, t, flow.tenant, reply, subject);
    if reply.Granted? && reply.grant.refresh.Some? {
      RunKeepsCustody(s, es);
      var grant, refresh, profile := reply.grant, reply.grant.refresh.value, provider.profile(reply.grant.access);
      var fs := SoloProfile(Run(s, es), t, flow.tenant, grant, refresh, profile);
      RunsJoin(s, es, fs);
      es := es + fs;
      if profile.Ok? {
        RunKeepsCustody(s, es);
        var s2 := Run(s, es);
        var gs := SoloLanding(s2, t, flow.tenant, subject, profile.value.displayName, grant, refresh, id);
        RunsJoin(s, es, gs);
        es := es + gs;
      }
    }
  }

  /** `disconnect` by itself, once its caller has found the account. */
  lemma SoloDrop(s: State, t: TaskId, tenant: string, id: string) returns (es: seq<Event>)
    requires t in s.tasks && s.tasks[t] == DropToken(tenant, id)
    ensures IsRun(s, es) && Run(s, es).db == SetStatus(Drop(s.db, id), tenant, id, Disconnected, s.now)
    ensures t in Run(s, es).tasks && Run(s, es).tasks[t] == if Owns(s.db, tenant, id) then Finished else Failed
  {
    var e := Act(t, Nothing);
    var s1 := Goto(s.(db := Drop(s.db, id)), t, MarkDisconnected(tenant, id));
    Push(s, [], s, e, s1);
    Push(s, [] + [e], s1, e, Apply(s1, e));
    es := [] + [e] + [e];
  }

  /** And all of it: only the owner's request does anything, and then what the class promises. */
  lemma SoloDisconnect(s: State, t: TaskId, tenant: string, id: string) returns (es: seq<Event>)
    requires t !in s.tasks
    ensures IsRun(s, es) && t in Run(s, es).tasks
    ensures var s' := Run(s, es);
            if id in s.db.accounts && s.db.accounts[id].tenant == tenant
            then
              && s'.tasks[t] == Finished && s'.db.tokens == s.db.tokens - {id}
              && s'.db.accounts ==
                   s.db.accounts[id := s.db.accounts[id].(status := Disconnected, updatedAt := s.now)]
            else s'.tasks[t] == Failed && s'.db == s.db
  {
    var begin, get := Begin(t, DisconnectGet(tenant, id)), Act(t, Nothing);
    var s0 := Goto(s, t, DisconnectGet(tenant, id));
    var s1 := Goto(s, t, if Owns(s.db, tenant, id) then DropToken(tenant, id) else Failed);
    Push(s, [], s, begin, s0);
    assert s0.tasks[t := s1.tasks[t]] == s1.tasks;
    Push(s, [] + [begin], s0, get, s1);
    es := [] + [begin] + [get];
    if Owns(s.db, tenant, id) {
      var rest := SoloDrop(s1, t, tenant, id);
      RunsJoin(s, es, rest);
      es := es + rest;
    }
  }

  // ---- Removal ----------------------------------------------------------------------

  lemma SoloRemoveRow(s: State, t: TaskId, tenant: string, id: string) returns (es: seq<Event>)
    requires t in s.tasks && s.tasks[t] == RemoveRow(tenant, id) && Owns(s.db, tenant, id)
    ensures IsRun(s, es) && t in Run(s, es).tasks && Run(s, es).tasks[t] == Finished
    ensures Run(s, es).db == Db(s.db.accounts - {id}, s.db.tokens - {id})
  {
    var e := Act(t, Nothing);
    Push(s, [], s, e, Apply(s, e));
    es := [] + [e];
  }

  lemma SoloFindByEmail(s: State, t: TaskId, tenant: string, email: string, id: string) returns (es: seq<Event>)
    requires t in s.tasks && s.tasks[t] == RemoveByEmail(tenant, email)
    requires Matches(s.db, tenant, email) != {} ==> id in Matches(s.db, tenant, email)
    ensures IsRun(s, es)
    ensures Run(s, es) == Goto(s, t, if Matches(s.db, tenant, email) == {} then Failed else RemoveRow(tenant, id))
  {
    var e := Act(t, Row(id));
    Push(s, [], s, e, Apply(s, e));
    es := [] + [e];
  }

  /** What `remove_account` is asked for: the owner's row under that id, or one with that email up to case. */
  predicate Named(s: State, tenant: string, key: string, id: string) {
    && id in s.db.accounts && s.db.accounts[id].tenant == tenant
    && if key in s.db.accounts && s.db.accounts[key].tenant == tenant then id == key
       else SameUpToCase(s.db.accounts[id].email, key)
  }

  lemma SoloRemoveGet(s: State, t: TaskId, tenant: string, key: string) returns (es: seq<Event>)
    requires t !in s.tasks
    ensures IsRun(s, es)
    ensures Run(s, es) == Goto(s, t, if Owns(s.db, tenant, key) then RemoveRow(tenant, key)
                                     else RemoveByEmail(tenant, key))
  {
    var begin, get := Begin(t, RemoveGet(tenant, key)), Act(t, Nothing);
    var s0 := Goto(s, t, RemoveGet(tenant, key));
    var s1 := Goto(s, t, if Owns(s.db, tenant, key) then RemoveRow(tenant, key) else RemoveByEmail(tenant, key));
    Push(s, [], s, begin, s0);
    assert s0.tasks[t := s1.tasks[t]] == s1.tasks;
    Push(s, [] + [begin], s0, get, s1);
    es := [] + [begin] + [get];
  }

  /** `remove_account` by itself: any account so named goes with its token, and nothing if there is none. */
  lemma SoloRemove(s: State, t: TaskId, tenant: string, key: string, id: string) returns (es: seq<Event>)
    requires t !in s.tasks && ((exists x :: Named(s, tenant, key, x)) ==> Named(s, tenant, key, id))
    ensures IsRun(s, es) && t in Run(s, es).tasks
    ensures if Named(s, tenant, key, id)
            then Run(s, es).tasks[t] == Finished && Run(s, es).db == Db(s.db.accounts - {id}, s.db.tokens - {id})
            else Run(s, es).tasks[t] == Failed && Run(s, es).db == s.db
  {
    es := SoloRemoveGet(s, t, tenant, key);
    var s1 := Run(s, es);
    var rest;
    if Owns(s.db, tenant, key) {
      assert Named(s, tenant, key, key);
      rest := SoloRemoveRow(s1, t, tenant, key);
    } else {
      NamedByEmail(s, tenant, key, id);
      rest := SoloFindByEmail(s1, t, tenant, key, id);
      if Named(s, tenant, key, id) {
        RunsJoin(s, es, rest);
        es := es + rest;
        rest := SoloRemoveRow(Run(s, es), t, tenant, id);
      }
    }
    RunsJoin(s, es, rest);
    es := es + rest;
  }

  lemma NamedByEmail(s: State, tenant: string, key: string, id: string)
    requires !Owns(s.db, tenant, key) && ((exists x :: Named(s, tenant, key, x)) ==> Named(s, tenant, key, id))
    ensures Named(s, tenant, key, id) <==> Matches(s.db, tenant, key) != {}
    ensures Named(s, tenant, key, id) <==> id in Matches(s.db, tenant, key)
  {
    forall x ensures x in Matches(s.db, tenant, key) <==> Named(s, tenant, key, x) {
      MatchesAreSameUpToCase(s.db, tenant, key, x);
    }
  }
}
