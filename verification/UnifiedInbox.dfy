/**
 * The unified inbox over accounts that may have no token (`src/provider/graph.rs:108-136`,
 * `src/provider/mod.rs:55-63`). What counts is the token, not the status: an account that was
 * disconnected and has consented again is shown.
 */
module UnifiedInbox {
  import opened Prelude
  import opened Tables
  import opened Graph
  import opened Inbox

  /** One account's `list_messages`: the authorized request, and what its answer reads as. */
  datatype Visit = Visit(account: Account, world: World, get: Turn, refresh: Turn, again: Turn,
                         first: Delivery, second: Delivery, messages: Result<seq<Email>, AppError>)

  function ListMessages(v: Visit): Inbox {
    Inbox(v.account, match Sending(v.world, v.account.id, v.get, v.refresh, v.again, v.first, v.second).1
                     case Err(e) => Err(e)
                     case Ok(_) => v.messages)
  }

  /** An account whose request was answered shows what the last answer reads as. */
  lemma AnsweredIsShown(v: Visit)
    requires Consistent(v.world.db) && FirstBearer(v.world.db, v.account.id, v.get).Some?
    ensures v.first != Ok(401) && v.first.Ok? ==> ListMessages(v) == Inbox(v.account, v.messages)
    ensures v.first == Ok(401) && RetryBearer(v.refresh, v.again).Some? && v.second.Ok? ==>
              ListMessages(v) == Inbox(v.account, v.messages)
    ensures v.first.Err? || (v.first == Ok(401) && (RetryBearer(v.refresh, v.again).None? || v.second.Err?)) ==>
              ListMessages(v).messages.Err?
  {
    LastResponseIsReturned(v.world, v.account.id, v.get, v.refresh, v.again, v.first, v.second);
  }

  function ListEach(visits: seq<Visit>): seq<Inbox> {
    if visits == [] then [] else [ListMessages(visits[0])] + ListEach(visits[1..])
  }

  /** The accounts that have a token when their turn comes. */
  function WithToken(visits: seq<Visit>): seq<Visit> {
    if visits == [] then []
    else (if visits[0].account.id in visits[0].world.db.tokens then [visits[0]] else []) + WithToken(visits[1..])
  }

  lemma {:induction false} TokenlessContributeNothing(visits: seq<Visit>)
    ensures Collect(ListEach(visits)) == Collect(ListEach(WithToken(visits)))
  {
    if visits != [] {
      var v, rest := visits[0], visits[1..];
      TokenlessContributeNothing(rest);
      CollectConcat([ListMessages(v)], ListEach(rest));
      assert Collect([ListMessages(v)]) == Tagged(ListMessages(v));
      if v.account.id in v.world.db.tokens {
        assert ([v] + WithToken(rest))[1..] == WithToken(rest);
        CollectConcat([ListMessages(v)], ListEach(WithToken(rest)));
      } else {
        TokenlessSendsNothing(v.world, v.account.id, v.get, v.refresh, v.again, v.first, v.second);
        assert Tagged(ListMessages(v)) == [] && [] + WithToken(rest) == WithToken(rest);
      }
    }
  }

  /** The inbox equals the one computed without the accounts that have no token. */
  lemma TokenlessAreExcluded(visits: seq<Visit>, limit: nat)
    ensures Aggregate(ListEach(visits), limit) == Aggregate(ListEach(WithToken(visits)), limit)
  {
    TokenlessContributeNothing(visits);
  }
}
