/**
 * `send_authorized` (`src/provider/graph.rs:45-62`): a request with the account's bearer token,
 * sent once more after a forced refresh if Graph answers 401. Here nothing else happens during a
 * request; `LifecycleClient` is about requests among other tasks.
 */
module Graph {
  import opened Prelude
  import opened Timestamps
  import opened Tables
  import opened TokenRules
  import opened TokenManager

  const UNAUTHORIZED := 401

  /** The status of a response, or why none came. */
  type Delivery = Result<int, AppError>

  /** A call of the token manager: when it starts, and what the token endpoint would answer it. */
  datatype Turn = Turn(now: Instant, answer: Answer)

  // ---- Specification ----------------------------------------------------------------

  /** The tables, every bearer token sent so far, and the number of refresh requests made. */
  datatype World = World(db: Db<StoredToken>, sent: seq<Secret>, exchanges: nat)

  /** Asking for a token. */
  function Asked(w: World, id: string, turn: Turn): World {
    w.(db := GetDb(w.db, id, turn.now, turn.answer), exchanges := w.exchanges + GetCost(w.db, id, turn.now))
  }

  /** Sending with it, if there is one. */
  function Delivered(w: World, token: Result<Secret, AppError>, delivery: Delivery): (World, Delivery) {
    match token
    case Err(e) => (w, Err(e))
    case Ok(bearer) => (w.(sent := w.sent + [bearer]), delivery)
  }

  function Attempt(w: World, id: string, turn: Turn, delivery: Delivery): (World, Delivery) {
    Delivered(Asked(w, id, turn), GetResult(w.db, id, turn.now, turn.answer), delivery)
  }

  /** The second attempt: a forced refresh first. */
  function Retry(w: World, id: string, refresh: Turn, again: Turn, delivery: Delivery): (World, Delivery) {
    var w' := w.(db := RefreshDb(w.db, id, refresh.answer),
                 exchanges := w.exchanges + RefreshCost(w.db, id));
    match RefreshResult(w.db, id, refresh.answer)
    case Err(e) => (w', Err(e))
    case Ok(_) => Attempt(w', id, again, delivery)
  }

  function Sending(w: World, id: string, get: Turn, refresh: Turn, again: Turn, first: Delivery,
                   second: Delivery): (World, Delivery) {
    var one := Attempt(w, id, get, first);
    if one.1 == Ok(UNAUTHORIZED) then Retry(one.0, id, refresh, again, second) else one
  }

  /** The token a forced refresh stored is not good enough for the cache when it is asked for again. */
  predicate RenewedTooShort(refresh: Turn, again: Turn) {
    && refresh.answer.reply.Granted?
    && var expiry := refresh.answer.reply.grant.expiresAt;
       expiry.None? || expiry.value <= again.now + EXPIRY_SKEW
  }

  lemma AttemptKeepsToken(db: Db<StoredToken>, id: string, get: Turn)
    requires Consistent(db)
    ensures id in GetDb(db, id, get.now, get.answer).tokens <==> id in db.tokens
    ensures Consistent(GetDb(db, id, get.now, get.answer))
  {
  }

  lemma RenewalHitsUnlessShort(db: Db<StoredToken>, id: string, refresh: Turn, again: Turn)
    requires Consistent(db) && id in db.tokens && refresh.answer.reply.Granted?
    ensures Hit(RefreshDb(db, id, refresh.answer), id, again.now) <==> !RenewedTooShort(refresh, again)
  {
    assert id in db.accounts;
  }

  lemma AttemptCosts(w: World, id: string, turn: Turn, delivery: Delivery)
    ensures var (w', r) := Attempt(w, id, turn, delivery);
            var sends := id in w.db.tokens && (Hit(w.db, id, turn.now) || turn.answer.reply.Granted?);
            && w'.db == GetDb(w.db, id, turn.now, turn.answer)
            && w'.exchanges == w.exchanges + (if id in w.db.tokens && !Hit(w.db, id, turn.now) then 1 else 0)
            && |w'.sent| == |w.sent| + (if sends then 1 else 0)
            && r == if sends then delivery else Err(TokenExpired)
  {
  }

  lemma RetryCosts(w: World, id: string, refresh: Turn, again: Turn, delivery: Delivery)
    requires Consistent(w.db)
    ensures var w' := Retry(w, id, refresh, again, delivery).0;
            && |w'.sent| <= |w.sent| + 1 && w'.exchanges <= w.exchanges + 2
            && (w'.exchanges == w.exchanges + 2 <==> id in w.db.tokens && RenewedTooShort(refresh, again))
  {
    if id in w.db.tokens && refresh.answer.reply.Granted? {
      RenewalHitsUnlessShort(w.db, id, refresh, again);
      AttemptCosts(w.(db := RefreshDb(w.db, id, refresh.answer), exchanges := w.exchanges + 1), id, again, delivery);
    }
  }

  /**
   * Undisturbed, at most two sends and three exchanges, and three exactly when the first token had to be
   * renewed, Graph refused it all the same, and what the forced refresh brought expires within
   * the safety margin.
   */
  lemma AtMostTwoSendsThreeExchanges(w: World, id: string, get: Turn, refresh: Turn, again: Turn, first: Delivery,
                                     second: Delivery)
    requires Consistent(w.db)
    ensures var w' := Sending(w, id, get, refresh, again, first, second).0;
            && |w'.sent| <= |w.sent| + 2 && w'.exchanges <= w.exchanges + 3
            && (w'.exchanges == w.exchanges + 3 <==>
                  && id in w.db.tokens && !Hit(w.db, id, get.now) && get.answer.reply.Granted?
                  && first == Ok(UNAUTHORIZED) && RenewedTooShort(refresh, again))
  {
    AttemptKeepsToken(w.db, id, get);
    AttemptCosts(w, id, get, first);
    RetryCosts(Attempt(w, id, get, first).0, id, refresh, again, second);
  }

  /** If what the provider issues outlives the margin when it is used again, two exchanges are the most. */
  lemma TwoExchangesIfTokensLast(w: World, id: string, get: Turn, refresh: Turn, again: Turn, first: Delivery,
                                 second: Delivery)
    requires Consistent(w.db) && !RenewedTooShort(refresh, again)
    ensures Sending(w, id, get, refresh, again, first, second).0.exchanges <= w.exchanges + 2
  {
    AtMostTwoSendsThreeExchanges(w, id, get, refresh, again, first, second);
  }

  /** Undisturbed, the retry sends a token granted since the refusal. */
  lemma RetrySendsWhatWasGrantedSince(w: World, id: string, refresh: Turn, again: Turn, delivery: Delivery)
    requires Consistent(w.db)
    ensures var w' := Retry(w, id, refresh, again, delivery).0;
            w'.sent != w.sent ==>
              && refresh.answer.reply.Granted?
              && (RenewedTooShort(refresh, again) ==> again.answer.reply.Granted?)
              && w'.sent == w.sent + [if RenewedTooShort(refresh, again) then again.answer.reply.grant.access
                                      else refresh.answer.reply.grant.access]
  {
    if id in w.db.tokens && refresh.answer.reply.Granted? {
      RenewalHitsUnlessShort(w.db, id, refresh, again);
      assert RefreshDb(w.db, id, refresh.answer).tokens[id]
          == Renewed(w.db.tokens[id], refresh.answer.reply.grant, refresh.answer.at);
    }
  }

  /** The token a request starts with: the cached one, or one just granted. */
  function FirstBearer(db: Db<StoredToken>, id: string, get: Turn): Option<Secret> {
    if id !in db.tokens then None
    else if Hit(db, id, get.now) then Some(db.tokens[id].access)
    else if get.answer.reply.Granted? then Some(get.answer.reply.grant.access)
    else None
  }

  /** The token the retry goes out with: the forced refresh's, or one more if that is too short-lived. */
  function RetryBearer(refresh: Turn, again: Turn): Option<Secret> {
    if refresh.answer.reply.Refused? then None
    else if !RenewedTooShort(refresh, again) then Some(refresh.answer.reply.grant.access)
    else if again.answer.reply.Granted? then Some(again.answer.reply.grant.access)
    else None
  }

  /**
   * Which response the caller gets, and what was sent for it: the first unless it was a 401, and
   * then the second; if there is no token to send with, the call fails as expired.
   */
  lemma LastResponseIsReturned(w: World, id: string, get: Turn, refresh: Turn, again: Turn, first: Delivery,
                               second: Delivery)
    requires Consistent(w.db)
    ensures var (w', r) := Sending(w, id, get, refresh, again, first, second);
            var one, two := FirstBearer(w.db, id, get), RetryBearer(refresh, again);
            && (one.None? ==> r == Err(TokenExpired) && w'.sent == w.sent)
            && (one.Some? && first != Ok(401) ==> r == first && w'.sent == w.sent + [one.value])
            && (one.Some? && first == Ok(401) && two.None? ==>
                  r == Err(TokenExpired) && w'.sent == w.sent + [one.value])
            && (one.Some? && first == Ok(401) && two.Some? ==>
                  r == second && w'.sent == w.sent + [one.value] + [two.value])
  {
    AttemptKeepsToken(w.db, id, get);
    var one := Attempt(w, id, get, first);
    if one.1 == Ok(UNAUTHORIZED) && refresh.answer.reply.Granted? {
      RenewalHitsUnlessShort(one.0.db, id, refresh, again);
      assert RefreshDb(one.0.db, id, refresh.answer).tokens[id].access == refresh.answer.reply.grant.access;
    }
  }

  /** And what was sent last is what stays stored, unless the last call was refused. */
  lemma LastBearerIsStored(w: World, id: string, get: Turn, refresh: Turn, again: Turn, first: Delivery,
                           second: Delivery)
    requires Consistent(w.db)
    ensures var w' := Sending(w, id, get, refresh, again, first, second).0;
            var one, two := FirstBearer(w.db, id, get), RetryBearer(refresh, again);
            && (one.Some? && first != Ok(401) ==> id in w'.db.tokens && w'.db.tokens[id].access == one.value)
            && (one.Some? && first == Ok(401) && two.Some? ==>
                  id in w'.db.tokens && w'.db.tokens[id].access == two.value)
  {
    AttemptKeepsToken(w.db, id, get);
    if FirstBearer(w.db, id, get).Some? {
      BearerIsStored(w.db, id, get);
    }
    var one := Attempt(w, id, get, first);
    if one.1 == Ok(UNAUTHORIZED) && refresh.answer.reply.Granted? {
      RenewalHitsUnlessShort(one.0.db, id, refresh, again);
      var renewed := RefreshDb(one.0.db, id, refresh.answer);
      if FirstBearer(renewed, id, again).Some? {
        BearerIsStored(renewed, id, again);
      }
    }
  }

  lemma BearerIsStored(db: Db<StoredToken>, id: string, get: Turn)
    requires Consistent(db) && FirstBearer(db, id, get).Some?
    ensures var db' := GetDb(db, id, get.now, get.answer);
            id in db'.tokens && db'.tokens[id].access == FirstBearer(db, id, get).value
  {
    assert id in db.accounts;
  }

  /** Without a token, a disconnected account say, the call fails; nothing is sent, asked or changed. */
  lemma TokenlessSendsNothing(w: World, id: string, get: Turn, refresh: Turn, again: Turn, first: Delivery,
                              second: Delivery)
    requires id !in w.db.tokens
    ensures Sending(w, id, get, refresh, again, first, second) == (w, Err(TokenExpired))
  {
  }

  // ---- The code ---------------------------------------------------------------------

  class MicrosoftGraph {
    const tokens: TokenManager
    /** The bearer tokens sent so far. */
    ghost var sent: seq<Secret>

    constructor (tokens: TokenManager)
      ensures this.tokens == tokens && sent == []
    {
      this.tokens := tokens;
      sent := [];
    }

    ghost function Now(): World
      reads this, tokens, tokens.db
    {
      World(tokens.View(), sent, tokens.exchanges)
    }

    method Send(token: Result<Secret, AppError>, delivery: Delivery) returns (r: Delivery)
      modifies this`sent
      ensures (Now(), r) == Delivered(old(Now()), token, delivery)
    {
      if token.Err? {
        return Err(token.error);
      }
      sent := sent + [token.value];
      r := delivery;
    }

    /** Get a token and send with it. */
    method SendOnce(id: string, turn: Turn, delivery: Delivery) returns (r: Delivery)
      requires tokens.Valid()
      modifies this`sent, tokens`refreshLocks, tokens`exchanges, tokens.db`tokens, tokens.db`plain
      ensures tokens.Valid()
      ensures (Now(), r) == Attempt(old(Now()), id, turn, delivery)
    {
      ghost var asked := Asked(Now(), id, turn);
      var token := tokens.GetAccessToken(id, turn.now, turn.answer);
      assert Now() == asked;
      r := Send(token, delivery);
    }

    /** The forced refresh and what follows it. */
    method RetryOnce(id: string, refresh: Turn, again: Turn, delivery: Delivery) returns (r: Delivery)
      requires tokens.Valid()
      modifies this`sent, tokens`refreshLocks, tokens`exchanges, tokens.db`tokens, tokens.db`plain
      ensures tokens.Valid()
      ensures (Now(), r) == Retry(old(Now()), id, refresh, again, delivery)
    {
      ghost var w := Now();
      ghost var renewed := World(RefreshDb(w.db, id, refresh.answer), w.sent, w.exchanges + RefreshCost(w.db, id));
      var forced := tokens.RefreshAccount(id, refresh.now, refresh.answer);
      assert Now() == renewed && forced == RefreshResult(w.db, id, refresh.answer);
      if forced.Err? {
        r := Err(forced.error);
        assert Retry(w, id, refresh, again, delivery) == (renewed, r);
      } else {
        assert Retry(w, id, refresh, again, delivery) == Attempt(renewed, id, again, delivery);
        r := SendOnce(id, again, delivery);
      }
    }

    method SendAuthorized(id: string, get: Turn, refresh: Turn, again: Turn, first: Delivery, second: Delivery)
      returns (r: Delivery)
      requires tokens.Valid()
      modifies this`sent, tokens`refreshLocks, tokens`exchanges, tokens.db`tokens, tokens.db`plain
      ensures tokens.Valid()
      ensures (Now(), r) == Sending(old(Now()), id, get, refresh, again, first, second)
    {
      r := SendOnce(id, get, first);
      if r == Ok(UNAUTHORIZED) {
        r := RetryOnce(id, refresh, again, second);
      }
    }
  }
}
