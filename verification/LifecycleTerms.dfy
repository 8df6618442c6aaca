/**
 * The terms of a token: expiry and scope stay those of the grant that brought it, whatever
 * refreshes, consents and bumps interleave, so the safety margin is kept against the expiry the
 * provider gave (`src/auth/token.rs:130-137`, `148-187`, `243-257`).
 */
module LifecycleTerms {
  import opened Prelude
  import opened Tables
  import opened TokenRules
  import opened Lifecycle
  import opened LifecycleCustody

  /** What each access token was granted with. */
  type Grants = map<Secret, Grant>

  /** The provider answers a code or a refresh token with a grant. */
  predicate Issues(s: State, e: Event) {
    && e.Act? && e.task in s.tasks && (s.tasks[e.task].Exchange? || s.tasks[e.task].CodeExchange?)
    && e.choice.Answer? && e.choice.reply.Granted?
  }

  function GrantsAfter(grants: Grants, s: State, e: Event): Grants {
    if Issues(s, e) then grants[e.choice.reply.grant.access := e.choice.reply.grant] else grants
  }

  /** All grants of a run. */
  function Granted(s: State, es: seq<Event>): Grants
    requires IsRun(s, es)
  {
    if es == [] then map[]
    else GrantsAfter(Granted(s, es[..|es| - 1]), Run(s, es[..|es| - 1]), es[|es| - 1])
  }

  /** The token says of its access token what the grant said. */
  predicate AsGranted(grants: Grants, token: StoredToken) {
    && token.access in grants
    && token.expiresAt == grants[token.access].expiresAt && token.scope == grants[token.access].scope
  }

  predicate PhaseAsGranted(grants: Grants, p: Phase) {
    match p
    case BumpWrite(_, read) => AsGranted(grants, read)
    case RefreshWrite(_, _, _, renewed) => AsGranted(grants, renewed)
    case Resolve(_, grant, _) => grant.access in grants && grants[grant.access] == grant
    case Lookup(_, _, _, grant, _) => grant.access in grants && grants[grant.access] == grant
    case CheckRow(_, token) => AsGranted(grants, token)
    case CreateRow(_, token) => AsGranted(grants, token)
    case ConsentWrite(_, token) => AsGranted(grants, token)
    case _ => true
  }

  predicate AllAsGranted(grants: Grants, s: State) {
    && (forall id | id in s.db.tokens :: AsGranted(grants, s.db.tokens[id]))
    && (forall t | t in s.tasks :: PhaseAsGranted(grants, s.tasks[t]))
    && grants.Keys <= s.provider.accessOf.Keys
  }

  /** Grants are of new access tokens, so none is forgotten. */
  lemma GrantsAreKept(grants: Grants, s: State, e: Event)
    requires Enabled(s, e) && grants.Keys <= s.provider.accessOf.Keys
    ensures Extends(grants, GrantsAfter(grants, s, e))
  {
  }

  lemma GrantsAreIssued(grants: Grants, s: State, t: TaskId, p: Phase, c: Choice)
    requires t in s.tasks && s.tasks[t] == p && CanAct(s, p, c) && grants.Keys <= s.provider.accessOf.Keys
    ensures GrantsAfter(grants, s, Act(t, c)).Keys <= Take(s, t, p, c).provider.accessOf.Keys
  {
    if !p.Exchange? && !p.CodeExchange? {
      IssuersOnly(s, t, p, c);
    }
  }

  lemma PhaseStaysAsGranted(grants: Grants, grants': Grants, p: Phase)
    requires Extends(grants, grants') && PhaseAsGranted(grants, p)
    ensures PhaseAsGranted(grants', p)
  {
  }

  /** What a consent carries on it was granted with. */
  lemma ConsentCarriesTerms(grants: Grants, s: State, t: TaskId, p: Phase, c: Choice)
    requires t in s.tasks && s.tasks[t] == p && InConsent(p) && PhaseAsGranted(grants, p) && CanAct(s, p, c)
    ensures PhaseAsGranted(GrantsAfter(grants, s, Act(t, c)), Take(s, t, p, c).tasks[t])
  {
  }

  /** And what the others carry on was granted now, or read from the table. */
  lemma OthersCarryTerms(grants: Grants, s: State, t: TaskId, p: Phase, c: Choice)
    requires t in s.tasks && s.tasks[t] == p && !InConsent(p) && CanAct(s, p, c)
    requires forall id | id in s.db.tokens :: AsGranted(grants, s.db.tokens[id])
    ensures PhaseAsGranted(GrantsAfter(grants, s, Act(t, c)), Take(s, t, p, c).tasks[t])
  {
  }

  lemma StoredAsGranted(grants: Grants, s: State, t: TaskId, p: Phase, c: Choice)
    requires t in s.tasks && s.tasks[t] == p && CanAct(s, p, c) && PhaseAsGranted(grants, p)
    requires forall id | id in s.db.tokens :: AsGranted(grants, s.db.tokens[id])
    ensures forall id | id in Take(s, t, p, c).db.tokens :: AsGranted(grants, Take(s, t, p, c).db.tokens[id])
  {
  }

  lemma ActKeepsTerms(grants: Grants, s: State, t: TaskId, p: Phase, c: Choice)
    requires AllAsGranted(grants, s) && t in s.tasks && s.tasks[t] == p && CanAct(s, p, c)
    ensures AllAsGranted(GrantsAfter(grants, s, Act(t, c)), Take(s, t, p, c))
  {
    var grants', s' := GrantsAfter(grants, s, Act(t, c)), Take(s, t, p, c);
    OnlyItsTaskMoves(s, t, p, c);
    GrantsAreKept(grants, s, Act(t, c));
    GrantsAreIssued(grants, s, t, p, c);
    StoredAsGranted(grants, s, t, p, c);
    forall u | u in s'.tasks ensures PhaseAsGranted(grants', s'.tasks[u]) {
      if u != t {
        PhaseStaysAsGranted(grants, grants', s.tasks[u]);
      } else if InConsent(p) {
        ConsentCarriesTerms(grants, s, t, p, c);
      } else {
        OthersCarryTerms(grants, s, t, p, c);
      }
    }
  }

  lemma {:induction false} RunKeepsTerms(es: seq<Event>)
    requires IsRun(INIT, es)
    ensures AllAsGranted(Granted(INIT, es), Run(INIT, es))
  {
    if es != [] {
      var front, e := es[..|es| - 1], es[|es| - 1];
      RunKeepsTerms(front);
      if e.Act? {
        ActKeepsTerms(Granted(INIT, front), Run(INIT, front), e.task, Run(INIT, front).tasks[e.task], e.choice);
      }
    }
  }

  /** However often it was bumped, a stored token has the expiry and the scope it was granted with. */
  lemma StoredTermsAreGranted(es: seq<Event>, id: string)
    requires IsRun(INIT, es) && id in Run(INIT, es).db.tokens
    ensures var token, grants := Run(INIT, es).db.tokens[id], Granted(INIT, es);
            && token.access in grants && token.expiresAt == grants[token.access].expiresAt
            && token.scope == grants[token.access].scope
  {
    RunKeepsTerms(es);
  }

  /** The access token `get_access_token` found good enough, just after it read the table. */
  function Cached(p: Phase): Option<Secret> {
    match p
    case Got(_, access) => Some(access)
    case BumpWrite(_, read) => Some(read.access)
    case _ => None
  }

  /**
   * A token is served from the cache exactly if the provider gave it an expiry that lies more
   * than five minutes ahead at that moment; every other is refreshed first.
   */
  lemma ServedIffGrantLasts(es: seq<Event>, t: TaskId, c: Choice)
    requires IsRun(INIT, es) && t in Run(INIT, es).tasks && Run(INIT, es).tasks[t].GetRead?
    requires Enabled(Run(INIT, es), Act(t, c))
    ensures var s, grants := Run(INIT, es), Granted(INIT, es);
            var id, p' := s.tasks[t].id, Take(s, t, s.tasks[t], c).tasks[t];
            && (id in s.db.tokens ==> s.db.tokens[id].access in grants)
            && if id in s.db.tokens
                  && var expiry := grants[s.db.tokens[id].access].expiresAt;
                     expiry.Some? && expiry.value > s.now + 5 * 60 * 1_000_000_000
               then Cached(p') == Some(s.db.tokens[id].access)
               else p' == LockEntry(id, ReadBack)
  {
    RunKeepsTerms(es);
    ReadStep(Run(INIT, es), t, Run(INIT, es).tasks[t], c);
  }

  lemma ReadStep(s: State, t: TaskId, p: Phase, c: Choice)
    requires p.GetRead? && CanAct(s, p, c)
    ensures var p' := Take(s, t, p, c).tasks[t];
            if p.id in s.db.tokens && s.db.tokens[p.id].expiresAt.Some?
               && s.db.tokens[p.id].expiresAt.value > s.now + 5 * 60 * 1_000_000_000
            then Cached(p') == Some(s.db.tokens[p.id].access)
            else p' == LockEntry(p.id, ReadBack)
  {
  }
}
