/**
 * How old a recorded use can get: the six-hour write throttle, the inactivity cutoff and the
 * period of the refresh loop together (`src/auth/token.rs:28`, `148-164`, `211-257`,
 * `src/cli/mod.rs:191-201`). Calls follow one another here; the clock never runs backwards.
 */
module Renewal {
  import opened Prelude
  import opened Timestamps
  import opened Tables
  import opened TokenRules
  import opened TokenManager

  // ---- Runs of calls ----------------------------------------------------------------

  /** Everything that writes the token table; batches are several `Refresh`es. */
  datatype Call =
    | Get(id: string, now: Instant, answer: Answer)
    | Refresh(id: string, answer: Answer)
    | Connect(account: Account, consented: Consented, at: Instant)
    | Disconnect(account: Account, at: Instant)
    | Remove(tenant: string, id: string, at: Instant)

  function From(c: Call): Instant {
    match c
    case Get(_, now, _) => now
    case Refresh(_, answer) => answer.at
    case _ => c.at
  }

  function Until(c: Call): Instant {
    if c.Get? || c.Refresh? then c.answer.at else c.at
  }

  function Do(db: Db<StoredToken>, c: Call): Db<StoredToken> {
    match c
    case Get(id, now, answer) => GetDb(db, id, now, answer)
    case Refresh(id, answer) => RefreshDb(db, id, answer)
    case Connect(account, consented, at) => Upsert(Create(db, account), account.id, FirstToken(consented, at))
    case Disconnect(account, at) => DisconnectDb(db, account, at)
    case Remove(tenant, id, _) => Tables.Remove(db, tenant, id)
  }

  /** A consent that lands is a `Connect`, whether or not it made the account. */
  lemma LandingIsConnect(was: Db<StoredToken>, after: Db<StoredToken>, a: Account, tenant: string, c: Consented,
                         id: string, now: Instant)
    requires Consistent(was) && id !in was.accounts && LandsOn(was, after, a, tenant, c, id, now)
    ensures after == Do(was, Connect(a, c, now))
  {
    Fits(was, a, tenant, c, id, now);
  }

  function After(db: Db<StoredToken>, calls: seq<Call>): Db<StoredToken> {
    if calls == [] then db else Do(After(db, calls[..|calls| - 1]), calls[|calls| - 1])
  }

  predicate Monotone(calls: seq<Call>) {
    && (forall i | 0 <= i < |calls| :: From(calls[i]) <= Until(calls[i]))
    && (forall i, j | 0 <= i < j < |calls| :: Until(calls[i]) <= From(calls[j]))
  }

  lemma DoKeepsSchema(db: Db<StoredToken>, c: Call)
    requires Consistent(db)
    ensures Consistent(Do(db, c))
  {
    if c.Connect? {
      StatementsKeepSchema(db, c.account, "", "", Active, 0);
    }
  }

  lemma {:induction false} RunKeepsSchema(db: Db<StoredToken>, calls: seq<Call>)
    requires Consistent(db)
    ensures Consistent(After(db, calls))
  {
    if calls != [] {
      RunKeepsSchema(db, calls[..|calls| - 1]);
      DoKeepsSchema(After(db, calls[..|calls| - 1]), calls[|calls| - 1]);
    }
  }

  /** No token of this account, or one whose use was recorded no earlier than `bound`. */
  predicate Fresh(db: Db<StoredToken>, id: string, bound: int) {
    id in db.tokens ==> !Inactive(db.tokens[id], bound)
  }

  lemma DoKeepsFresh(db: Db<StoredToken>, c: Call, id: string, bound: int)
    requires Fresh(db, id, bound) && bound <= From(c) <= Until(c)
    ensures Fresh(Do(db, c), id, bound)
  {
  }

  lemma {:induction false} RunKeepsFresh(db: Db<StoredToken>, calls: seq<Call>, id: string, bound: int)
    requires Fresh(db, id, bound) && forall i | 0 <= i < |calls| :: bound <= From(calls[i]) <= Until(calls[i])
    ensures Fresh(After(db, calls), id, bound)
  {
    if calls != [] {
      RunKeepsFresh(db, calls[..|calls| - 1], id, bound);
      DoKeepsFresh(After(db, calls[..|calls| - 1]), calls[|calls| - 1], id, bound);
    }
  }

  lemma {:induction false} AfterSplits(db: Db<StoredToken>, calls: seq<Call>, k: nat)
    requires k <= |calls|
    ensures After(db, calls) == After(After(db, calls[..k]), calls[k..])
  {
    if k == |calls| {
      assert calls[..k] == calls && calls[k..] == [];
    } else {
      var front := calls[..|calls| - 1];
      AfterSplits(db, front, k);
      assert front[..k] == calls[..k] && front[k..] == calls[k..][..|calls| - k - 1];
    }
  }

  /** Every token but the exempt accounts' is fresh. */
  predicate FreshBut(db: Db<StoredToken>, exempt: set<string>, bound: int) {
    forall id | id in db.tokens :: id in exempt || Fresh(db, id, bound)
  }

  lemma DoKeepsFreshBut(db: Db<StoredToken>, c: Call, exempt: set<string>, bound: int)
    requires FreshBut(db, exempt, bound) && bound <= From(c) <= Until(c)
    ensures FreshBut(Do(db, c), exempt, bound)
  {
    forall id | id in Do(db, c).tokens ensures id in exempt || Fresh(Do(db, c), id, bound) {
      if id !in exempt {
        DoKeepsFresh(db, c, id, bound);
      }
    }
  }

  // ---- The throttle -----------------------------------------------------------------

  predicate Succeeds(db: Db<StoredToken>, c: Call) {
    c.Get? && GetResult(db, c.id, c.now, c.answer).Ok?
  }

  /**
   * Right after a successful `get_access_token` the account still counts as idle in one case
   * only: the throttle kept an earlier use on record, at most six hours back, and the cutoff
   * is later than that.
   */
  lemma IdleAfterUseIff(db: Db<StoredToken>, c: Call, cutoff: int)
    requires Consistent(db) && Succeeds(db, c) && From(c) <= Until(c) && cutoff <= c.now
    ensures c.id in InactiveIds(Do(db, c), cutoff) <==>
              && Hit(db, c.id, c.now) && db.tokens[c.id].lastUsedAt.Some?
              && c.now - USAGE_WRITE_INTERVAL <= db.tokens[c.id].lastUsedAt.value < cutoff
  {
    assert c.id in db.tokens && c.id in db.accounts;
  }

  /** Bounded lag: whatever follows, `refresh_stale` spares an account used at its cutoff plus six hours or later. */
  lemma RecentUseIsSpared(db: Db<StoredToken>, calls: seq<Call>, k: nat, cutoff: int)
    requires Consistent(db) && Monotone(calls) && k < |calls|
    requires Succeeds(After(db, calls[..k]), calls[k]) && cutoff + USAGE_WRITE_INTERVAL <= calls[k].now
    ensures calls[k].id !in InactiveIds(After(db, calls), cutoff)
  {
    var c, before := calls[k], After(db, calls[..k]);
    RunKeepsSchema(db, calls[..k]);
    IdleAfterUseIff(before, c, cutoff);
    assert calls[..k + 1][..k] == calls[..k];
    AfterSplits(db, calls, k + 1);
    var rest := calls[k + 1..];
    forall i | 0 <= i < |rest| ensures cutoff <= From(rest[i]) <= Until(rest[i]) {
      assert rest[i] == calls[k + 1 + i];
    }
    RunKeepsFresh(Do(before, c), rest, c.id, cutoff);
    assert After(db, calls[..k + 1]) == Do(before, c);
  }

  predicate Bumps(db: Db<StoredToken>, c: Call, id: string) {
    c.Get? && c.id == id && Hit(db, id, c.now) && BumpDue(db.tokens[id], c.now)
  }

  /** When cache hits on this account wrote. */
  function BumpTimes(db: Db<StoredToken>, calls: seq<Call>, id: string): seq<Instant> {
    if calls == [] then []
    else
      var front, c := calls[..|calls| - 1], calls[|calls| - 1];
      BumpTimes(db, front, id) + if Bumps(After(db, front), c, id) then [c.now] else []
  }

  /** Since the last bump of the account, every token stored for it is at least as fresh. */
  lemma {:induction false} LastBumpIsFresh(db: Db<StoredToken>, calls: seq<Call>, id: string)
    requires Consistent(db) && Monotone(calls) && BumpTimes(db, calls, id) != []
    ensures var times := BumpTimes(db, calls, id);
            && Fresh(After(db, calls), id, times[|times| - 1])
            && exists i :: 0 <= i < |calls| && times[|times| - 1] == From(calls[i])
  {
    var front, c := calls[..|calls| - 1], calls[|calls| - 1];
    if Bumps(After(db, front), c, id) {
      RunKeepsSchema(db, front);
      assert From(c) == c.now && id in After(db, front).accounts;
    } else {
      LastBumpIsFresh(db, front, id);
      var times := BumpTimes(db, front, id);
      var i :| 0 <= i < |front| && times[|times| - 1] == From(front[i]);
      assert front[i] == calls[i] && Until(calls[i]) <= From(c);
      DoKeepsFresh(After(db, front), c, id, times[|times| - 1]);
    }
  }

  lemma NextBumpIsLater(db: Db<StoredToken>, calls: seq<Call>, id: string)
    requires Consistent(db) && Monotone(calls) && calls != [] && BumpTimes(db, calls[..|calls| - 1], id) != []
    requires Bumps(After(db, calls[..|calls| - 1]), calls[|calls| - 1], id)
    ensures var times := BumpTimes(db, calls[..|calls| - 1], id);
            calls[|calls| - 1].now - times[|times| - 1] > USAGE_WRITE_INTERVAL
  {
    LastBumpIsFresh(db, calls[..|calls| - 1], id);
  }

  /** More than six hours apart for each step between them. */
  predicate Spaced(times: seq<Instant>, i: nat, j: nat)
    requires i < j < |times|
  {
    times[j] - times[i] > (j - i) * USAGE_WRITE_INTERVAL
  }

  lemma OneMoreSpaced(times: seq<Instant>, next: Instant, i: nat)
    requires i < |times| && next - times[|times| - 1] > USAGE_WRITE_INTERVAL
    requires i < |times| - 1 ==> Spaced(times, i, |times| - 1)
    ensures Spaced(times + [next], i, |times|)
  {
  }

  /** Two bumps of one account are more than six hours apart for each step between them. */
  lemma {:induction false} BumpsAreSpaced(db: Db<StoredToken>, calls: seq<Call>, id: string, i: nat, j: nat)
    requires Consistent(db) && Monotone(calls) && i < j < |BumpTimes(db, calls, id)|
    ensures Spaced(BumpTimes(db, calls, id), i, j)
  {
    var front, c := calls[..|calls| - 1], calls[|calls| - 1];
    var times := BumpTimes(db, front, id);
    if j < |times| {
      BumpsAreSpaced(db, front, id, i, j);
    } else {
      NextBumpIsLater(db, calls, id);
      if i < j - 1 {
        BumpsAreSpaced(db, front, id, i, j - 1);
      }
      OneMoreSpaced(times, c.now, i);
    }
  }

  /** `n` bumps of one account within a span of `w` need more than `n - 1` intervals. */
  lemma BumpsInSpan(db: Db<StoredToken>, calls: seq<Call>, id: string, start: int, w: int)
    requires Consistent(db) && Monotone(calls) && BumpTimes(db, calls, id) != []
    requires forall t | t in BumpTimes(db, calls, id) :: start <= t < start + w
    ensures (|BumpTimes(db, calls, id)| - 1) * USAGE_WRITE_INTERVAL < w
  {
    var times := BumpTimes(db, calls, id);
    assert times[0] in times && times[|times| - 1] in times;
    if |times| > 1 {
      BumpsAreSpaced(db, calls, id, 0, |times| - 1);
      SpacedInSpan(times, start, w);
    }
  }

  lemma SpacedInSpan(times: seq<Instant>, start: int, w: int)
    requires |times| > 1 && Spaced(times, 0, |times| - 1)
    requires start <= times[0] && times[|times| - 1] < start + w
    ensures (|times| - 1) * USAGE_WRITE_INTERVAL < w
  {
  }

  // ---- The refresh loop -------------------------------------------------------------

  /** The pause between two runs. */
  function Period(intervalSecs: nat): (period: nat)
    ensures period >= 60 * 1_000_000_000 && period >= intervalSecs * 1_000_000_000
    ensures period == 60 * 1_000_000_000 || period == intervalSecs * 1_000_000_000
  {
    (if intervalSecs < 60 then 60 else intervalSecs) * SECOND
  }

  /** The loop's settings, and how late a pause may end and how long a run may take. */
  datatype Timing = Timing(intervalSecs: nat, days: nat, slack: nat, length: nat)

  /** The longest pause. */
  function Pause(timing: Timing): nat {
    Period(timing.intervalSecs) + timing.slack
  }

  /** From one run's start to the next one's, at most. */
  function Gap(timing: Timing): nat {
    timing.length + Pause(timing)
  }

  /** A run of `refresh_stale` under way: when it started, and what it still has to renew. */
  datatype Run = Run(start: Instant, listed: set<string>)

  /** `done`: when the last completed run started, and when it ended. */
  datatype Loop = Loop(db: Db<StoredToken>, now: Instant, run: Option<Run>, done: Option<(Instant, Instant)>)

  datatype Beat =
    | Other(call: Call)
    | StartRun(at: Instant)
    | Renew(id: string, answer: Answer)
    | EndRun(at: Instant)

  function Moment(b: Beat): Instant {
    match b
    case Other(call) => Until(call)
    case StartRun(at) => at
    case Renew(_, answer) => answer.at
    case EndRun(at) => at
  }

  /** The next run starts, and the present one ends, when it should. */
  predicate OnTime(timing: Timing, l: Loop, t: int) {
    match l.run
    case Some(run) => t <= run.start + timing.length
    case None => l.done.Some? ==> t <= l.done.value.1 + Pause(timing)
  }

  /** All renewals succeed; everything else may happen at any moment, during a run too. */
  predicate Allowed(timing: Timing, l: Loop, b: Beat) {
    && l.now <= Moment(b) && OnTime(timing, l, Moment(b))
    && match b
       case Other(call) => l.now <= From(call) <= Until(call)
       case StartRun(at) => l.run.None? && (l.done.Some? ==> at >= l.done.value.1 + Period(timing.intervalSecs))
       case Renew(id, answer) => l.run.Some? && id in l.run.value.listed && answer.reply.Granted?
       case EndRun(_) => l.run.Some? && l.run.value.listed == {}
  }

  function Happen(timing: Timing, l: Loop, b: Beat): Loop
    requires Allowed(timing, l, b)
  {
    match b
    case Other(call) => l.(db := Do(l.db, call), now := Until(call))
    case StartRun(at) => l.(now := at, run := Some(Run(at, InactiveIds(l.db, Cutoff(at, timing.days)))))
    case Renew(id, answer) =>
      l.(db := RefreshDb(l.db, id, answer), now := answer.at,
         run := Some(l.run.value.(listed := l.run.value.listed - {id})))
    case EndRun(at) => l.(now := at, run := None, done := Some((l.run.value.start, at)))
  }

  predicate Timeline(timing: Timing, l: Loop, beats: seq<Beat>)
    decreases |beats|, 0
  {
    beats == [] || (Timeline(timing, l, beats[..|beats| - 1])
                    && Allowed(timing, Final(timing, l, beats[..|beats| - 1]), beats[|beats| - 1]))
  }

  function Final(timing: Timing, l: Loop, beats: seq<Beat>): Loop
    requires Timeline(timing, l, beats)
    decreases |beats|, 1
  {
    if beats == [] then l else Happen(timing, Final(timing, l, beats[..|beats| - 1]), beats[|beats| - 1])
  }

  /** What a completed run achieved lasts, and a run under way achieves it for all it has dealt with. */
  predicate KeptUp(timing: Timing, l: Loop) {
    && Consistent(l.db)
    && (l.done.Some? ==>
          && l.done.value.0 <= l.done.value.1 <= l.now && l.done.value.1 <= l.done.value.0 + timing.length
          && FreshBut(l.db, {}, Cutoff(l.done.value.0, timing.days)))
    && (l.run.Some? ==>
          && l.run.value.start <= l.now
          && (l.done.Some? ==> l.run.value.start <= l.done.value.1 + Pause(timing))
          && FreshBut(l.db, l.run.value.listed, Cutoff(l.run.value.start, timing.days)))
  }

  lemma HappenKeepsUp(timing: Timing, l: Loop, b: Beat)
    requires KeptUp(timing, l) && Allowed(timing, l, b)
    ensures KeptUp(timing, Happen(timing, l, b))
  {
    match b
    case Other(call) => OtherKeepsUp(timing, l, call);
    case Renew(id, answer) => RenewKeepsUp(timing, l, id, answer);
    case StartRun(_) =>
    case EndRun(_) =>
  }

  lemma OtherKeepsUp(timing: Timing, l: Loop, call: Call)
    requires KeptUp(timing, l) && Allowed(timing, l, Other(call))
    ensures KeptUp(timing, Happen(timing, l, Other(call)))
  {
    DoKeepsSchema(l.db, call);
    if l.done.Some? {
      DoKeepsFreshBut(l.db, call, {}, Cutoff(l.done.value.0, timing.days));
    }
    if l.run.Some? {
      DoKeepsFreshBut(l.db, call, l.run.value.listed, Cutoff(l.run.value.start, timing.days));
    }
  }

  /** A granted refresh leaves nothing of its account that needs exempting. */
  lemma RefreshedIsFresh(db: Db<StoredToken>, id: string, answer: Answer, exempt: set<string>, bound: int)
    requires Consistent(db) && FreshBut(db, exempt, bound) && bound <= answer.at && answer.reply.Granted?
    ensures FreshBut(RefreshDb(db, id, answer), exempt - {id}, bound)
  {
    DoKeepsFreshBut(db, Refresh(id, answer), exempt, bound);
  }

  lemma RenewKeepsUp(timing: Timing, l: Loop, id: string, answer: Answer)
    requires KeptUp(timing, l) && Allowed(timing, l, Renew(id, answer))
    ensures KeptUp(timing, Happen(timing, l, Renew(id, answer)))
  {
    DoKeepsSchema(l.db, Refresh(id, answer));
    if l.done.Some? {
      DoKeepsFreshBut(l.db, Refresh(id, answer), {}, Cutoff(l.done.value.0, timing.days));
    }
    RefreshedIsFresh(l.db, id, answer, l.run.value.listed, Cutoff(l.run.value.start, timing.days));
  }

  lemma {:induction false} TimelineKeepsUp(timing: Timing, l: Loop, beats: seq<Beat>)
    requires KeptUp(timing, l) && Timeline(timing, l, beats)
    ensures KeptUp(timing, Final(timing, l, beats))
  {
    if beats != [] {
      TimelineKeepsUp(timing, l, beats[..|beats| - 1]);
      HappenKeepsUp(timing, Final(timing, l, beats[..|beats| - 1]), beats[|beats| - 1]);
    }
  }

  lemma AgeAtMost(used: int, start: int, t: int, days: int, rest: int)
    requires used >= Cutoff(start, days) && t <= start + rest
    ensures t - used <= days * DAY + rest
  {
  }

  lemma KeptUpAge(timing: Timing, l: Loop, t: int, id: string)
    requires KeptUp(timing, l) && l.done.Some? && OnTime(timing, l, t) && id in l.db.tokens
    ensures var used := l.db.tokens[id].lastUsedAt;
            used.Some? && t - used.value <= timing.days * DAY + (Gap(timing) + timing.length)
  {
    var start := l.done.value.0;
    assert Fresh(l.db, id, Cutoff(start, timing.days));
    assert t <= start + (Gap(timing) + timing.length);
    AgeAtMost(l.db.tokens[id].lastUsedAt.value, start, t, timing.days, Gap(timing) + timing.length);
  }

  /**
   * Bounded staleness: from the first completed run on, at any moment, no stored token was
   * last used longer ago than the inactivity threshold and the longest time from the start of
   * one run to the end of the next: two runs and the pause between them.
   */
  lemma NothingGrowsOlder(timing: Timing, db: Db<StoredToken>, start: Instant, beats: seq<Beat>, t: int, id: string)
    requires Consistent(db) && Timeline(timing, Loop(db, start, None, None), beats)
    requires var l := Final(timing, Loop(db, start, None, None), beats);
             l.done.Some? && l.now <= t && OnTime(timing, l, t) && id in l.db.tokens
    ensures var used := Final(timing, Loop(db, start, None, None), beats).db.tokens[id].lastUsedAt;
            used.Some? && t - used.value <= timing.days * DAY + Gap(timing) + timing.length
  {
    TimelineKeepsUp(timing, Loop(db, start, None, None), beats);
    KeptUpAge(timing, Final(timing, Loop(db, start, None, None), beats), t, id);
  }

  // ---- The code of the loop ---------------------------------------------------------

  /** How long each run takes, and how late the pause after it ends. */
  datatype Pace = Pace(takes: nat -> nat, late: nat -> nat)

  /** What the provider answers in each run, account by account. */
  type Replies = nat -> string -> Answer

  /** When the loop starts its `i`-th run. */
  function StartOf(start: Instant, intervalSecs: nat, pace: Pace, i: nat): int {
    if i == 0 then start
    else StartOf(start, intervalSecs, pace, i - 1) + pace.takes(i - 1) + Period(intervalSecs) + pace.late(i - 1)
  }

  /** One `refresh_stale`. */
  function Round(db: Db<StoredToken>, days: nat, now: int, answers: string -> Answer): Db<StoredToken> {
    RefreshEach(db, InactiveIds(db, Cutoff(now, days)), answers)
  }

  /** The first runs of the loop, nothing else going on. */
  function Rounds(db: Db<StoredToken>, timing: Timing, start: Instant, pace: Pace, answers: Replies,
                  n: nat): Db<StoredToken> {
    if n == 0 then db
    else
      Round(Rounds(db, timing, start, pace, answers, n - 1), timing.days,
            StartOf(start, timing.intervalSecs, pace, n - 1), answers(n - 1))
  }

  lemma NextRound(db: Db<StoredToken>, timing: Timing, start: Instant, pace: Pace, answers: Replies, n: nat)
    ensures Rounds(db, timing, start, pace, answers, n + 1)
         == Round(Rounds(db, timing, start, pace, answers, n), timing.days,
                  StartOf(start, timing.intervalSecs, pace, n), answers(n))
  {
  }

  /** At `t`, hence at every earlier moment, every use on record is at most this old. */
  predicate NoneOlder(db: Db<StoredToken>, t: int, age: int) {
    forall id | id in db.tokens :: db.tokens[id].lastUsedAt.Some? && t - db.tokens[id].lastUsedAt.value <= age
  }

  /** The runs and pauses keep to `timing`. */
  predicate Paced(timing: Timing, pace: Pace, n: nat) {
    forall i: nat | i < n :: pace.takes(i) <= timing.length && pace.late(i) <= timing.slack
  }

  /** Every renewal succeeds, and no reply comes before its run starts. */
  ghost predicate AllGranted(timing: Timing, start: Instant, pace: Pace, answers: Replies, n: nat) {
    forall i: nat, id | i < n ::
      answers(i)(id).reply.Granted? && StartOf(start, timing.intervalSecs, pace, i) <= answers(i)(id).at
  }

  /** Right after one run no use on record is older than the threshold, seen from the run's start. */
  lemma RoundRenews(db: Db<StoredToken>, days: nat, now: Instant, answers: string -> Answer)
    requires forall id :: answers(id).reply.Granted? && now <= answers(id).at
    ensures var db' := Round(db, days, now, answers);
            db'.accounts == db.accounts && db'.tokens.Keys == db.tokens.Keys && NoneOlder(db', now, days * DAY)
  {
  }

  /** The tables after the loop's runs: the same accounts, each with as fresh a token as the loop promises. */
  lemma RoundsRenew(db: Db<StoredToken>, timing: Timing, start: Instant, pace: Pace, answers: Replies, n: nat)
    requires n > 0 && Paced(timing, pace, n) && AllGranted(timing, start, pace, answers, n)
    requires StartOf(start, timing.intervalSecs, pace, n - 1) < END_OF_TIME
    ensures NoneOlder(Rounds(db, timing, start, pace, answers, n), StartOf(start, timing.intervalSecs, pace, n - 1),
                      timing.days * DAY)
    ensures NoneOlder(Rounds(db, timing, start, pace, answers, n),
                      StartOf(start, timing.intervalSecs, pace, n) + timing.length,
                      timing.days * DAY + Gap(timing) + timing.length)
  {
    var last := StartOf(start, timing.intervalSecs, pace, n - 1);
    StartsAreSpaced(start, timing.intervalSecs, pace, 0, n - 1);
    RoundRenews(Rounds(db, timing, start, pace, answers, n - 1), timing.days, last, answers(n - 1));
    assert StartOf(start, timing.intervalSecs, pace, n) <= last + Gap(timing);
  }

  /** Two runs start at least the interval, and never less than a minute, apart for each run between them. */
  lemma {:induction false} StartsAreSpaced(start: Instant, intervalSecs: nat, pace: Pace, i: nat, j: nat)
    requires i <= j
    ensures StartOf(start, intervalSecs, pace, j) - StartOf(start, intervalSecs, pace, i)
         >= (j - i) * Period(intervalSecs)
    decreases j
  {
    if i < j {
      StartsAreSpaced(start, intervalSecs, pace, i, j - 1);
      assert (j - i) * Period(intervalSecs) == (j - 1 - i) * Period(intervalSecs) + Period(intervalSecs);
    }
  }

  /**
   * `refresh_loop`, for as many runs as the process lives: refresh, then sleep. As long as runs
   * and pauses keep to `timing` and renewals succeed, from the first run on and until the end
   * of the next no stored token's use is longer ago than threshold, pause and two runs.
   */
  method RefreshLoop(manager: TokenManager, timing: Timing, start: Instant, pace: Pace, answers: Replies, runs: nat)
    requires manager.Valid()
    requires forall i: nat | i < runs :: StartOf(start, timing.intervalSecs, pace, i) < END_OF_TIME
    modifies manager`refreshLocks, manager`exchanges, manager.db`tokens, manager.db`plain
    ensures manager.Valid()
    ensures manager.View() == Rounds(old(manager.View()), timing, start, pace, answers, runs)
    ensures runs > 0 && Paced(timing, pace, runs) && AllGranted(timing, start, pace, answers, runs) ==>
              NoneOlder(manager.View(), StartOf(start, timing.intervalSecs, pace, runs) + timing.length,
                        timing.days * DAY + Gap(timing) + timing.length)
  {
    ghost var was := manager.View();
    var now: int := start;
    for i := 0 to runs
      invariant manager.Valid() && manager.View() == Rounds(was, timing, start, pace, answers, i)
      invariant now == StartOf(start, timing.intervalSecs, pace, i)
    {
      now := RefreshAndSleep(manager, was, timing, start, now, pace, answers, i);
    }
    if runs > 0 && Paced(timing, pace, runs) && AllGranted(timing, start, pace, answers, runs) {
      RoundsRenew(was, timing, start, pace, answers, runs);
    }
  }

  /** One turn of the loop: returns when the next one starts. */
  method RefreshAndSleep(manager: TokenManager, ghost was: Db<StoredToken>, timing: Timing, ghost start: Instant,
                         now: int,
                         pace: Pace, answers: Replies, i: nat) returns (next: int)
    requires manager.Valid() && manager.View() == Rounds(was, timing, start, pace, answers, i)
    requires now == StartOf(start, timing.intervalSecs, pace, i) < END_OF_TIME
    modifies manager`refreshLocks, manager`exchanges, manager.db`tokens, manager.db`plain
    ensures manager.Valid() && manager.View() == Rounds(was, timing, start, pace, answers, i + 1)
    ensures next == StartOf(start, timing.intervalSecs, pace, i + 1)
  {
    StartsAreSpaced(start, timing.intervalSecs, pace, 0, i);
    NextRound(was, timing, start, pace, answers, i);
    var refreshed := manager.RefreshStale(timing.days, now, answers(i));
    next := now + pace.takes(i) + Period(timing.intervalSecs) + pace.late(i);
  }

  function Renewing(ids: seq<string>, k: nat, answers: string -> Answer): seq<Beat>
    requires k <= |ids|
  {
    seq(k, i requires 0 <= i < k => Renew(ids[i], answers(ids[i])))
  }

  /** A round at `at` can renew these accounts in this order, all granted, and be done by `end`. */
  ghost predicate Feasible(timing: Timing, l: Loop, at: Instant, ids: seq<string>, answers: string -> Answer,
                           end: Instant) {
    && Consistent(l.db) && Allowed(timing, l, StartRun(at)) && Distinct(ids)
    && (forall id :: id in ids <==> id in InactiveIds(l.db, Cutoff(at, timing.days)))
    && (forall i | 0 <= i < |ids| :: answers(ids[i]).reply.Granted? && at <= answers(ids[i]).at <= end)
    && (forall i, j | 0 <= i < j < |ids| :: answers(ids[i]).at <= answers(ids[j]).at)
    && at <= end <= at + timing.length
  }

  /** The loop's state once `k` of them are renewed. */
  function Underway(timing: Timing, l: Loop, at: Instant, ids: seq<string>, answers: string -> Answer, k: nat): Loop
    requires k <= |ids|
  {
    Loop(RefreshInTurn(l.db, ids[..k], answers), if k == 0 then at else answers(ids[k - 1]).at,
         Some(Run(at, InactiveIds(l.db, Cutoff(at, timing.days)) - FirstOf(ids, k))), l.done)
  }

  lemma RenewsNext(timing: Timing, l: Loop, at: Instant, ids: seq<string>, answers: string -> Answer, end: Instant,
                   k: nat)
    requires Feasible(timing, l, at, ids, answers, end) && k < |ids|
    ensures Allowed(timing, Underway(timing, l, at, ids, answers, k), Renew(ids[k], answers(ids[k])))
    ensures Happen(timing, Underway(timing, l, at, ids, answers, k), Renew(ids[k], answers(ids[k])))
         == Underway(timing, l, at, ids, answers, k + 1)
  {
    NextOf(ids, k);
    assert ids[..k + 1] == ids[..k] + [ids[k]] && ids[..k + 1][..k] == ids[..k];
    assert ids[k] in ids;
    var listed := InactiveIds(l.db, Cutoff(at, timing.days));
    assert listed - FirstOf(ids, k) - {ids[k]} == listed - FirstOf(ids, k + 1);
    assert RefreshInTurn(l.db, ids[..k + 1], answers)
        == RefreshDb(RefreshInTurn(l.db, ids[..k], answers), ids[k], answers(ids[k]));
  }

  lemma OneMoreBeat(timing: Timing, l: Loop, beats: seq<Beat>, b: Beat)
    requires Timeline(timing, l, beats) && Allowed(timing, Final(timing, l, beats), b)
    ensures Timeline(timing, l, beats + [b])
    ensures Final(timing, l, beats + [b]) == Happen(timing, Final(timing, l, beats), b)
  {
    assert (beats + [b])[..|beats + [b]| - 1] == beats;
  }

  lemma NoneRenewing(at: Instant, ids: seq<string>, answers: string -> Answer)
    ensures [StartRun(at)] + Renewing(ids, 0, answers) == [] + [StartRun(at)]
  {
  }

  lemma OneMoreRenewing(at: Instant, ids: seq<string>, k: nat, answers: string -> Answer)
    requires k < |ids|
    ensures [StartRun(at)] + Renewing(ids, k + 1, answers)
         == [StartRun(at)] + Renewing(ids, k, answers) + [Renew(ids[k], answers(ids[k]))]
  {
  }

  lemma StartIsUnderway(timing: Timing, l: Loop, at: Instant, ids: seq<string>, answers: string -> Answer)
    requires Allowed(timing, l, StartRun(at))
    ensures Happen(timing, l, StartRun(at)) == Underway(timing, l, at, ids, answers, 0)
  {
    var listed := InactiveIds(l.db, Cutoff(at, timing.days));
    assert FirstOf(ids, 0) == {} && listed - FirstOf(ids, 0) == listed && ids[..0] == [];
  }

  /** These beats lead from the loop `l` to the loop `to`. */
  predicate LeadsTo(timing: Timing, l: Loop, beats: seq<Beat>, to: Loop) {
    Timeline(timing, l, beats) && Final(timing, l, beats) == to
  }

  lemma LeadsOn(timing: Timing, l: Loop, beats: seq<Beat>, m: Loop, b: Beat, more: seq<Beat>, to: Loop)
    requires LeadsTo(timing, l, beats, m) && Allowed(timing, m, b) && Happen(timing, m, b) == to && more == beats + [b]
    ensures LeadsTo(timing, l, more, to)
  {
    OneMoreBeat(timing, l, beats, b);
  }

  lemma {:induction false} RenewalsAreAllowed(timing: Timing, l: Loop, at: Instant, ids: seq<string>,
                                              answers: string -> Answer,
                                              end: Instant, k: nat)
    requires Feasible(timing, l, at, ids, answers, end) && k <= |ids|
    ensures LeadsTo(timing, l, [StartRun(at)] + Renewing(ids, k, answers), Underway(timing, l, at, ids, answers, k))
  {
    var beats, to := [StartRun(at)] + Renewing(ids, k, answers), Underway(timing, l, at, ids, answers, k);
    if k == 0 {
      StartIsUnderway(timing, l, at, ids, answers);
      NoneRenewing(at, ids, answers);
      LeadsOn(timing, l, [], l, StartRun(at), beats, to);
    } else {
      RenewalsAreAllowed(timing, l, at, ids, answers, end, k - 1);
      RenewsNext(timing, l, at, ids, answers, end, k - 1);
      OneMoreRenewing(at, ids, k - 1, answers);
      LeadsOn(timing, l, [StartRun(at)] + Renewing(ids, k - 1, answers), Underway(timing, l, at, ids, answers, k - 1),
              Renew(ids[k - 1], answers(ids[k - 1])), beats, to);
    }
  }

  lemma AllRenewed(timing: Timing, l: Loop, at: Instant, ids: seq<string>, answers: string -> Answer, end: Instant)
    requires Feasible(timing, l, at, ids, answers, end)
    ensures Underway(timing, l, at, ids, answers, |ids|).db == Round(l.db, timing.days, at, answers)
    ensures Underway(timing, l, at, ids, answers, |ids|).run == Some(Run(at, {}))
  {
    BatchOrderIsInvisible(l.db, ids, answers);
    AllOf(ids, InactiveIds(l.db, Cutoff(at, timing.days)));
    assert ids[..|ids|] == ids;
    var listed := InactiveIds(l.db, Cutoff(at, timing.days));
    assert (set id | id in ids) == listed && listed - FirstOf(ids, |ids|) == {};
  }

  /** One round of the loop is such a run: it is allowed, completes, and does what `refresh_stale` does. */
  lemma RoundIsARun(timing: Timing, l: Loop, at: Instant, ids: seq<string>, answers: string -> Answer, end: Instant)
    requires Feasible(timing, l, at, ids, answers, end)
    ensures var beats := [StartRun(at)] + Renewing(ids, |ids|, answers) + [EndRun(end)];
            && Timeline(timing, l, beats)
            && Final(timing, l, beats) == Loop(Round(l.db, timing.days, at, answers), end, None, Some((at, end)))
  {
    var work := [StartRun(at)] + Renewing(ids, |ids|, answers);
    RenewalsAreAllowed(timing, l, at, ids, answers, end, |ids|);
    AllRenewed(timing, l, at, ids, answers, end);
    assert (work + [EndRun(end)])[..|work|] == work;
    assert Allowed(timing, Underway(timing, l, at, ids, answers, |ids|), EndRun(end));
  }
}
