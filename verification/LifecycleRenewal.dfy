/**
 * How old a recorded use can get when everything overlaps: the refresh loop's batches and all
 * other tasks interleave step by step, and a token is written some time after its use was
 * stamped (`src/auth/token.rs:148-189`, `211-233`, `src/cli/mod.rs:191-201`).
 */
module LifecycleRenewal {
  import opened Prelude
  import opened Timestamps
  import opened Tables
  import opened TokenRules
  import opened Lifecycle
  import opened LifecycleCustody
  import opened LifecycleClient
  import Renewal

  type Timing = Renewal.Timing

  // ---- The loop, watched ------------------------------------------------------------

  /** The loop's batch that has listed its accounts, and when it did. */
  datatype Batch = Batch(task: TaskId, start: Instant)

  /** `done`: when the last completed batch listed its accounts, and when it ended. */
  datatype Loop = Loop(run: Option<Batch>, done: Option<(Instant, Instant)>)

  function StartOf(s: State, l: Loop, t: TaskId): Instant {
    if t in s.tasks && !s.tasks[t].ListStale? && l.run.Some? then l.run.value.start else s.now
  }

  function WatchStep(l: Loop, s: State, e: Event, s': State, loop: set<TaskId>): Loop {
    if !e.Act? || e.task !in loop then l
    else if e.task in s'.tasks && s'.tasks[e.task].Finished?
    then Loop(None, Some((StartOf(s, l, e.task), s.now)))
    else l.(run := Some(Batch(e.task, StartOf(s, l, e.task))))
  }

  /** What a run says about the loop, whose batches are the tasks `loop`. */
  function Watch(s: State, es: seq<Event>, loop: set<TaskId>): Loop
    requires IsRun(s, es)
  {
    if es == [] then Loop(None, None)
    else
      var front, e := es[..|es| - 1], es[|es| - 1];
      WatchStep(Watch(s, front, loop), Run(s, front), e, Run(s, es), loop)
  }

  /** The present batch ends, and the next one lists, when it should. */
  predicate OnTime(timing: Timing, l: Loop, t: int) {
    match l.run
    case Some(batch) => t <= batch.start + timing.length
    case None => l.done.Some? ==> t <= l.done.value.1 + Renewal.Pause(timing)
  }

  /** A token is written at most `delay` after its use was stamped. */
  predicate Prompt(p: Phase, now: Instant, delay: nat) {
    && (p.RefreshWrite? ==> p.renewed.lastUsedAt.Some? && now <= p.renewed.lastUsedAt.value + delay)
    && (p.ConsentWrite? ==> p.token.lastUsedAt.Some? && now <= p.token.lastUsedAt.value + delay)
  }

  /** The loop runs one `refresh_stale` after another, and the provider grants its renewals. */
  predicate LoopKeeps(timing: Timing, l: Loop, p: Phase, c: Choice) {
    && (p.ListStale? ==> l.run.None?)
    && (p.Exchange? && c.Answer? ==> c.reply.Granted?)
  }

  predicate Allowed(timing: Timing, delay: nat, loop: set<TaskId>, s: State, l: Loop, e: Event) {
    match e
    case Begin(task, phase) => task in loop ==> phase == ListStale(timing.days)
    case Wait(until) => OnTime(timing, l, until)
    case Act(task, choice) =>
      task in s.tasks ==>
        && Prompt(s.tasks[task], s.now, delay)
        && (task in loop ==> LoopKeeps(timing, l, s.tasks[task], choice))
  }

  /** Everything else, other batches included, happens at any moment. */
  predicate Kept(timing: Timing, delay: nat, loop: set<TaskId>, s: State, es: seq<Event>)
    requires IsRun(s, es)
  {
    es == [] ||
    (var front, e := es[..|es| - 1], es[|es| - 1];
     Kept(timing, delay, loop, s, front) && Allowed(timing, delay, loop, Run(s, front), Watch(s, front, loop), e))
  }

  // ---- What writes do to the recorded uses ------------------------------------------

  /** Every token but the exempt accounts' was used at `bound` or later. */
  predicate UsedSince(db: Db<StoredToken>, exempt: set<string>, bound: int) {
    forall id | id in db.tokens && id !in exempt ::
      db.tokens[id].lastUsedAt.Some? && db.tokens[id].lastUsedAt.value >= bound
  }

  lemma WritesAreRecent(s: State, t: TaskId, p: Phase, c: Choice, delay: nat, id: string)
    requires CanAct(s, p, c) && WritesTokenRow(p) && Prompt(p, s.now, delay) && id in Take(s, t, p, c).db.tokens
    ensures var token := Take(s, t, p, c).db.tokens[id];
            || (id in s.db.tokens && s.db.tokens[id] == token)
            || (token.lastUsedAt.Some? && token.lastUsedAt.value >= s.now - delay)
  {
  }

  lemma StepKeepsUses(s: State, t: TaskId, p: Phase, c: Choice, delay: nat, exempt: set<string>, bound: int)
    requires CanAct(s, p, c) && Prompt(p, s.now, delay) && UsedSince(s.db, exempt, bound) && bound <= s.now - delay
    ensures UsedSince(Take(s, t, p, c).db, exempt, bound)
  {
    if WritesTokenRow(p) {
      forall id | id in Take(s, t, p, c).db.tokens && id !in exempt
        ensures var used := Take(s, t, p, c).db.tokens[id].lastUsedAt; used.Some? && used.value >= bound
      {
        WritesAreRecent(s, t, p, c, delay, id);
      }
    } else {
      OnlyTheseStore(s, t, p, c);
    }
  }

  // ---- One batch --------------------------------------------------------------------

  function AfterOf(p: Phase): Option<After> {
    match p
    case LockEntry(_, after) => Some(after)
    case LockWait(_, after) => Some(after)
    case RefreshRead(_, after) => Some(after)
    case Exchange(_, after, _) => Some(after)
    case RefreshWrite(_, after, _, _) => Some(after)
    case Unlock(_, after, _) => Some(after)
    case _ => None
  }

  /** Under way: past its listing and not yet finished. */
  predicate UnderWay(p: Phase) {
    AfterOf(p).Some? && AfterOf(p).value.Next?
  }

  /** The accounts a batch still has to renew. */
  function Remaining(p: Phase): set<string> {
    match p
    case LockEntry(id, Next(rest)) => {id} + Elements(rest)
    case LockWait(id, Next(rest)) => {id} + Elements(rest)
    case RefreshRead(id, Next(rest)) => {id} + Elements(rest)
    case Exchange(id, Next(rest), _) => {id} + Elements(rest)
    case RefreshWrite(id, Next(rest), _, _) => {id} + Elements(rest)
    case Unlock(_, Next(rest), _) => Elements(rest)
    case _ => {}
  }

  function Elements(ids: seq<string>): set<string> {
    set id | id in ids
  }

  lemma NextRemains(ids: seq<string>)
    ensures Remaining(NextOf(ids)) == Elements(ids)
    ensures NextOf(ids).Finished? || UnderWay(NextOf(ids))
  {
    if ids != [] {
      assert ids == [ids[0]] + ids[1..];
    }
  }

  /** Only the accounts whose renewal the batch has done are dealt with. */
  lemma BatchMoves(s: State, t: TaskId, p: Phase, c: Choice)
    requires UnderWay(p) && CanAct(s, p, c) && (p.Exchange? ==> c.reply.Granted?)
    ensures var p' := Take(s, t, p, c).tasks[t];
            && (UnderWay(p') || p'.Finished?)
            && Remaining(p') >= Remaining(p) - (if p.RefreshRead? || p.RefreshWrite? then {p.id} else {})
            && (p.RefreshRead? && p.id in s.db.tokens ==> Remaining(p') == Remaining(p))
  {
    if p.Unlock? {
      NextRemains(p.after.rest);
    }
  }

  /** A renewal that is written, or has no row to be written to, leaves nothing old. */
  lemma RenewalIsRecent(s: State, t: TaskId, p: Phase, c: Choice, delay: nat)
    requires Consistent(s.db) && p.RefreshWrite? && CanAct(s, p, c) && Prompt(p, s.now, delay)
    ensures var db := Take(s, t, p, c).db;
            p.id in db.tokens ==>
              db.tokens[p.id].lastUsedAt.Some? && db.tokens[p.id].lastUsedAt.value >= s.now - delay
  {
  }

  lemma BatchKeepsUses(s: State, t: TaskId, p: Phase, c: Choice, delay: nat, bound: int)
    requires Consistent(s.db) && UnderWay(p) && CanAct(s, p, c) && (p.Exchange? ==> c.reply.Granted?)
    requires Prompt(p, s.now, delay) && UsedSince(s.db, Remaining(p), bound) && bound <= s.now - delay
    ensures UsedSince(Take(s, t, p, c).db, Remaining(Take(s, t, p, c).tasks[t]), bound)
  {
    StepKeepsUses(s, t, p, c, delay, Remaining(p), bound);
    BatchMoves(s, t, p, c);
    if p.RefreshWrite? {
      RenewalIsRecent(s, t, p, c, delay);
    } else if p.RefreshRead? {
      assert Take(s, t, p, c).db == s.db;
    }
  }

  /** What the listing leaves out was used recently. */
  lemma ListingFindsOld(s: State, t: TaskId, p: Phase, c: Choice)
    requires p.ListStale? && p.days >= 0 && CanAct(s, p, c)
    ensures var s' := Take(s, t, p, c);
            && s'.db == s.db && UsedSince(s'.db, Remaining(s'.tasks[t]), Cutoff(s.now, p.days))
            && (s'.tasks[t].Finished? || UnderWay(s'.tasks[t]))
  {
    NextRemains(c.ids);
  }

  // ---- What the loop achieves -------------------------------------------------------

  function Max(x: int, y: int): int {
    if x >= y then x else y
  }

  /** Every use on record after a batch is at least this late. */
  function Floor(timing: Timing, delay: nat, start: int): int {
    start - Max(timing.days * DAY, delay)
  }

  /** Where the loop's own tasks may stand. */
  predicate LoopTasks(timing: Timing, loop: set<TaskId>, s: State, l: Loop) {
    forall t | t in loop && t in s.tasks ::
      || s.tasks[t] == ListStale(timing.days) || s.tasks[t].Finished?
      || (l.run.Some? && l.run.value.task == t && UnderWay(s.tasks[t]))
  }

  predicate DoneOk(timing: Timing, delay: nat, s: State, l: Loop) {
    l.done.Some? ==>
      && l.done.value.0 <= l.done.value.1 <= s.now && l.done.value.1 <= l.done.value.0 + timing.length
      && UsedSince(s.db, {}, Floor(timing, delay, l.done.value.0))
  }

  predicate RunOk(timing: Timing, delay: nat, loop: set<TaskId>, s: State, l: Loop) {
    l.run.Some? ==>
      && l.run.value.task in s.tasks && l.run.value.task in loop && UnderWay(s.tasks[l.run.value.task])
      && l.run.value.start <= s.now <= l.run.value.start + timing.length
      && (l.done.Some? ==> l.run.value.start <= l.done.value.1 + Renewal.Pause(timing))
      && UsedSince(s.db, Remaining(s.tasks[l.run.value.task]), Floor(timing, delay, l.run.value.start))
  }

  predicate KeptUp(timing: Timing, delay: nat, loop: set<TaskId>, s: State, l: Loop) {
    && LoopTasks(timing, loop, s, l) && DoneOk(timing, delay, s, l) && RunOk(timing, delay, loop, s, l)
    && (l.run.None? ==> OnTime(timing, l, s.now))
  }

  lemma OtherStepKeepsUp(timing: Timing, delay: nat, loop: set<TaskId>, s: State, l: Loop, e: Event)
    requires KeptUp(timing, delay, loop, s, l) && Enabled(s, e) && Allowed(timing, delay, loop, s, l, e)
    requires e.Act? && e.task !in loop
    ensures KeptUp(timing, delay, loop, Apply(s, e), l)
  {
    var t, p, c := e.task, s.tasks[e.task], e.choice;
    OnlyItsTaskMoves(s, t, p, c);
    if l.done.Some? {
      StepKeepsUses(s, t, p, c, delay, {}, Floor(timing, delay, l.done.value.0));
    }
    if l.run.Some? {
      StepKeepsUses(s, t, p, c, delay, Remaining(s.tasks[l.run.value.task]), Floor(timing, delay, l.run.value.start));
    }
  }

  lemma BatchStepKeepsUp(timing: Timing, delay: nat, loop: set<TaskId>, s: State, l: Loop, e: Event)
    requires Consistent(s.db) && KeptUp(timing, delay, loop, s, l)
    requires Enabled(s, e) && Allowed(timing, delay, loop, s, l, e)
    requires e.Act? && e.task in loop && !s.tasks[e.task].ListStale?
    ensures KeptUp(timing, delay, loop, Apply(s, e), WatchStep(l, s, e, Apply(s, e), loop))
  {
    var t, p, c := e.task, s.tasks[e.task], e.choice;
    OnlyItsTaskMoves(s, t, p, c);
    BatchMoves(s, t, p, c);
    BatchKeepsUses(s, t, p, c, delay, Floor(timing, delay, l.run.value.start));
    if l.done.Some? {
      StepKeepsUses(s, t, p, c, delay, {}, Floor(timing, delay, l.done.value.0));
    }
  }

  lemma ListingKeepsUp(timing: Timing, delay: nat, loop: set<TaskId>, s: State, l: Loop, e: Event)
    requires KeptUp(timing, delay, loop, s, l) && Enabled(s, e) && Allowed(timing, delay, loop, s, l, e)
    requires e.Act? && e.task in loop && s.tasks[e.task].ListStale?
    ensures KeptUp(timing, delay, loop, Apply(s, e), WatchStep(l, s, e, Apply(s, e), loop))
  {
    OnlyItsTaskMoves(s, e.task, s.tasks[e.task], e.choice);
    ListingFindsOld(s, e.task, s.tasks[e.task], e.choice);
  }

  lemma {:induction false} RunKeepsUp(timing: Timing, delay: nat, loop: set<TaskId>, s: State, es: seq<Event>)
    requires Custody(s) && s.tasks.Keys !! loop && IsRun(s, es) && Kept(timing, delay, loop, s, es)
    ensures KeptUp(timing, delay, loop, Run(s, es), Watch(s, es, loop))
  {
    if es != [] {
      var front, e := es[..|es| - 1], es[|es| - 1];
      RunKeepsUp(timing, delay, loop, s, front);
      RunKeepsCustody(s, front);
      var m, l := Run(s, front), Watch(s, front, loop);
      if e.Act? {
        if e.task !in loop {
          OtherStepKeepsUp(timing, delay, loop, m, l, e);
        } else if m.tasks[e.task].ListStale? {
          ListingKeepsUp(timing, delay, loop, m, l, e);
        } else {
          BatchStepKeepsUp(timing, delay, loop, m, l, e);
        }
      }
    }
  }

  /**
   * Bounded staleness in every interleaving: from the loop's first completed batch on, no
   * stored token was last used longer ago than two batches, the pause between them and the
   * larger of the inactivity threshold and the delay of writes. A delay below the threshold
   * costs nothing.
   */
  lemma NothingGrowsOlder(timing: Timing, delay: nat, loop: set<TaskId>, s: State, es: seq<Event>, t: int, id: string)
    requires Custody(s) && s.tasks.Keys !! loop && IsRun(s, es) && Kept(timing, delay, loop, s, es)
    requires var l := Watch(s, es, loop); l.done.Some? && Run(s, es).now <= t && OnTime(timing, l, t)
    requires id in Run(s, es).db.tokens
    ensures var used := Run(s, es).db.tokens[id].lastUsedAt;
            used.Some? && t - used.value <= Max(timing.days * DAY, delay) + Renewal.Gap(timing) + timing.length
  {
    RunKeepsUp(timing, delay, loop, s, es);
  }
}
