/**
 * The unified inbox (`src/provider/mod.rs`): concatenate what every account returned, sort by
 * received time, newest first and undated last, keep the first `limit`.
 */
module Inbox {
  import opened Prelude
  import opened Rfc3339Forms
  import opened MergeOrder
  import opened Tables

  /** The fields of a message that matter here; the rest travel with it unread. */
  datatype Email = Email(id: string, subject: Option<string>, receivedAt: Option<string>)

  datatype AccountSummary = AccountSummary(id: string, email: string)

  datatype UnifiedEmail = UnifiedEmail(email: Email, account: AccountSummary)

  /** One account and what its `list_messages` returned. */
  datatype Inbox = Inbox(account: Account, messages: Result<seq<Email>, AppError>)

  // ---- The order --------------------------------------------------------------------

  function ParseTime(s: Option<string>): Option<int> {
    if s.None? then None else Rfc3339.Parse(s.value)
  }

  function CompareReceivedDesc(a: Option<string>, b: Option<string>): Ordering {
    match (ParseTime(a), ParseTime(b))
    case (Some(x), Some(y)) => if y < x then Less else if y == x then Equal else Greater
    case (Some(_), None) => Less
    case (None, Some(_)) => Greater
    case (None, None) => Equal
  }

  /** When a message was received, if it says so legibly. */
  function Received(m: UnifiedEmail): Option<int> {
    ParseTime(m.email.receivedAt)
  }

  /** The comparison is a total preorder whose ties are exactly the equal instants. */
  lemma CompareIsTotalPreorder(a: Option<string>, b: Option<string>, c: Option<string>)
    ensures CompareReceivedDesc(a, b) == Less <==> CompareReceivedDesc(b, a) == Greater
    ensures CompareReceivedDesc(a, b) == Equal <==> ParseTime(a) == ParseTime(b)
    ensures CompareReceivedDesc(a, b) != Greater && CompareReceivedDesc(b, c) != Greater
            ==> CompareReceivedDesc(a, c) != Greater
    ensures CompareReceivedDesc(a, b) != Greater <==> NewestFirst(ParseTime(a), ParseTime(b))
  {
    var x, y, z := ParseTime(a), ParseTime(b), ParseTime(c);
  }

  /**
   * Dates compare as the instants they denote, the later one first, whatever forms they are
   * written in, and a message without a date comes after all that have one.
   */
  lemma LaterComesFirst(a: Form, b: Form)
    requires a.Valid() && b.Valid()
    ensures CompareReceivedDesc(Some(a.Text()), Some(b.Text()))
         == if a.Instant() > b.Instant() then Less else if a.Instant() == b.Instant() then Equal else Greater
    ensures CompareReceivedDesc(Some(a.Text()), None) == Less && CompareReceivedDesc(None, Some(a.Text())) == Greater
    ensures CompareReceivedDesc(None, None) == Equal
  {
    ParsesEveryForm(a);
    ParsesEveryForm(b);
  }

  // ---- What is aggregated -----------------------------------------------------------

  function Tag(account: Account, messages: seq<Email>): (r: seq<UnifiedEmail>)
    ensures |r| == |messages|
    ensures forall i | 0 <= i < |r| ::
              r[i].email == messages[i] && r[i].account.id == account.id && r[i].account.email == account.email
  {
    seq(|messages|, i requires 0 <= i < |messages| =>
      UnifiedEmail(messages[i], AccountSummary(account.id, account.email)))
  }

  /** A failing account contributes nothing. */
  function Tagged(inbox: Inbox): seq<UnifiedEmail> {
    if inbox.messages.Ok? then Tag(inbox.account, inbox.messages.value) else []
  }

  function Collect(inboxes: seq<Inbox>): seq<UnifiedEmail> {
    if inboxes == [] then [] else Tagged(inboxes[0]) + Collect(inboxes[1..])
  }

  function Aggregate(inboxes: seq<Inbox>, limit: nat): seq<UnifiedEmail> {
    Take(limit, StableSort(Received, Collect(inboxes)))
  }

  // ---- The code ---------------------------------------------------------------------

  method AggregateUnifiedInbox(inboxes: seq<Inbox>, limit: nat) returns (r: seq<UnifiedEmail>)
    ensures r == Aggregate(inboxes, limit)
  {
    var all: seq<UnifiedEmail> := [];
    for i := 0 to |inboxes|
      invariant all == Collect(inboxes[..i])
    {
      CollectConcat(inboxes[..i], inboxes[i..i + 1]);
      assert inboxes[..i + 1] == inboxes[..i] + inboxes[i..i + 1];
      assert Collect(inboxes[i..i + 1]) == Tagged(inboxes[i]);
      if inboxes[i].messages.Ok? {
        all := all + Tag(inboxes[i].account, inboxes[i].messages.value);
      }
    }
    assert inboxes[..|inboxes|] == inboxes;
    var sorted := new UnifiedEmail[|all|](i requires 0 <= i < |all| => all[i]);
    assert sorted[..] == all;
    var compare := (x: UnifiedEmail, y: UnifiedEmail) => CompareReceivedDesc(x.email.receivedAt, y.email.receivedAt);
    forall x, y ensures compare(x, y) != Greater <==> NewestFirst(Received(x), Received(y)) {
      CompareIsTotalPreorder(x.email.receivedAt, y.email.receivedAt, None);
    }
    SortBy(compare, Received, sorted);
    SortContents(Received, all);
    assert |multiset(all)| == |all|;
    r := if limit < sorted.Length then sorted[..limit] else sorted[..];
  }

  // ---- Fetching only `limit` messages per account is enough -------------------------

  /** A complete mailbox, newest first, as the provider keeps it. */
  predicate Ordered(inbox: Inbox) {
    Sorted(Received, Tagged(inbox))
  }

  /** What `list_messages(account, limit)` returns of a complete mailbox. */
  function Fetch(inbox: Inbox, limit: nat): Inbox {
    if inbox.messages.Ok? then inbox.(messages := Ok(Take(limit, inbox.messages.value))) else inbox
  }

  function FetchAll(inboxes: seq<Inbox>, limit: nat): (r: seq<Inbox>)
    ensures |r| == |inboxes|
  {
    seq(|inboxes|, i requires 0 <= i < |inboxes| => Fetch(inboxes[i], limit))
  }

  lemma CollectFetched(inboxes: seq<Inbox>, limit: nat)
    requires inboxes != []
    ensures Collect(FetchAll(inboxes, limit))
        == Take(limit, Tagged(inboxes[0])) + Collect(FetchAll(inboxes[1..], limit))
  {
    assert FetchAll(inboxes, limit)[1..] == FetchAll(inboxes[1..], limit);
    assert Tagged(Fetch(inboxes[0], limit)) == Take(limit, Tagged(inboxes[0]));
  }

  /**
   * Top-k pushdown: asking every account for its `limit` newest messages gives, element for
   * element, the first `limit` of all complete mailboxes sorted together.
   */
  lemma {:induction false} PushdownIsExact(inboxes: seq<Inbox>, limit: nat)
    requires forall i | 0 <= i < |inboxes| :: Ordered(inboxes[i])
    ensures Aggregate(FetchAll(inboxes, limit), limit) == Aggregate(inboxes, limit)
  {
    if inboxes != [] {
      var first, rest := Tagged(inboxes[0]), inboxes[1..];
      assert Ordered(inboxes[0]);
      PushdownIsExact(rest, limit);
      CollectFetched(inboxes, limit);
      TakeSortConcat(Received, limit, first, Collect(rest));
      TakeSortConcat(Received, limit, Take(limit, first), Collect(FetchAll(rest, limit)));
      SortedIsFixed(Received, first);
      SortedIsFixed(Received, Take(limit, first));
      assert Take(limit, Take(limit, first)) == Take(limit, first);
    }
  }

  /** Asking for one more message only appends one. */
  lemma ShorterIsPrefix(inboxes: seq<Inbox>, k: nat)
    requires forall i | 0 <= i < |inboxes| :: Ordered(inboxes[i])
    ensures Aggregate(FetchAll(inboxes, k), k) <= Aggregate(FetchAll(inboxes, k + 1), k + 1)
    ensures |Aggregate(FetchAll(inboxes, k + 1), k + 1)| <= |Aggregate(FetchAll(inboxes, k), k)| + 1
  {
    PushdownIsExact(inboxes, k);
    PushdownIsExact(inboxes, k + 1);
  }

  /** What the result contains: a sorted selection that leaves out nothing newer. */
  lemma NothingNewerIsLeftOut(inboxes: seq<Inbox>, limit: nat) returns (rest: seq<UnifiedEmail>)
    ensures var r := Aggregate(inboxes, limit);
            && Sorted(Received, r)
            && (|r| == limit || rest == [])
            && |r| <= limit
            && multiset(Collect(inboxes)) == multiset(r) + multiset(rest)
            && forall m, n | m in r && n in rest :: NewestFirst(Received(m), Received(n))
  {
    rest := TopIsNewest(Received, limit, Collect(inboxes));
  }

  lemma {:induction false} CollectedFromSome(inboxes: seq<Inbox>, m: UnifiedEmail) returns (i: nat, k: nat)
    requires m in Collect(inboxes)
    ensures i < |inboxes| && inboxes[i].messages.Ok? && k < |inboxes[i].messages.value|
    ensures m.email == inboxes[i].messages.value[k]
    ensures m.account.id == inboxes[i].account.id && m.account.email == inboxes[i].account.email
  {
    if m in Tagged(inboxes[0]) {
      i, k := 0, 0;
      k :| 0 <= k < |Tagged(inboxes[0])| && Tagged(inboxes[0])[k] == m;
    } else {
      i, k := CollectedFromSome(inboxes[1..], m);
      i := i + 1;
    }
  }

  /** Each message of the inbox is one an account returned, and is shown with that account's id and email. */
  lemma EachMessageNamesItsAccount(inboxes: seq<Inbox>, limit: nat, m: UnifiedEmail) returns (i: nat, k: nat)
    requires m in Aggregate(inboxes, limit)
    ensures i < |inboxes| && inboxes[i].messages.Ok? && k < |inboxes[i].messages.value|
    ensures m.email == inboxes[i].messages.value[k]
    ensures m.account.id == inboxes[i].account.id && m.account.email == inboxes[i].account.email
  {
    var rest := NothingNewerIsLeftOut(inboxes, limit);
    assert m in multiset(Collect(inboxes));
    i, k := CollectedFromSome(inboxes, m);
  }

  // ---- Algebra ----------------------------------------------------------------------

  lemma {:induction false} CollectConcat(a: seq<Inbox>, b: seq<Inbox>)
    ensures Collect(a + b) == Collect(a) + Collect(b)
  {
    if a == [] {
      assert a + b == b;
    } else {
      assert (a + b)[1..] == a[1..] + b;
      CollectConcat(a[1..], b);
    }
  }

  /** Two halves aggregated apart merge into the whole. */
  lemma AggregateConcat(a: seq<Inbox>, b: seq<Inbox>, limit: nat)
    ensures Aggregate(a + b, limit) == Take(limit, Merge(Received, Aggregate(a, limit), Aggregate(b, limit)))
  {
    CollectConcat(a, b);
    TakeSortConcat(Received, limit, Collect(a), Collect(b));
  }

  function Working(inboxes: seq<Inbox>): seq<Inbox> {
    if inboxes == [] then []
    else (if inboxes[0].messages.Ok? then [inboxes[0]] else []) + Working(inboxes[1..])
  }

  /** Failing accounts behave as if absent. */
  lemma {:induction false} FailingAccountsAreAbsent(inboxes: seq<Inbox>, limit: nat)
    ensures Collect(inboxes) == Collect(Working(inboxes))
    ensures Aggregate(inboxes, limit) == Aggregate(Working(inboxes), limit)
  {
    if inboxes != [] {
      var first, rest := inboxes[0], Working(inboxes[1..]);
      FailingAccountsAreAbsent(inboxes[1..], limit);
      if first.messages.Ok? {
        assert Working(inboxes) == [first] + rest && ([first] + rest)[1..] == rest;
        assert Collect([first] + rest) == Tagged(first) + Collect(rest);
      } else {
        assert Working(inboxes) == rest;
      }
    }
  }

  /** An account whose messages cannot be read, a disconnected one say, might as well not be there. */
  lemma WithoutFailing(before: seq<Inbox>, failing: Inbox, after: seq<Inbox>, limit: nat)
    requires failing.messages.Err?
    ensures Aggregate(before + [failing] + after, limit) == Aggregate(before + after, limit)
  {
    CollectConcat(before + [failing], after);
    CollectConcat(before, [failing]);
    CollectConcat(before, after);
    assert Collect([failing]) == [] && Collect(before) + [] == Collect(before);
  }

  lemma {:induction false} CollectReordered(a: seq<Inbox>, b: seq<Inbox>)
    requires multiset(a) == multiset(b)
    ensures multiset(Collect(a)) == multiset(Collect(b))
  {
    if a == [] {
      assert |multiset(b)| == |b|;
    } else {
      assert a[0] in multiset(b);
      var i :| 0 <= i < |b| && b[i] == a[0];
      assert a == [a[0]] + a[1..];
      assert b == b[..i] + ([b[i]] + b[i + 1..]);
      assert multiset(a) == multiset{a[0]} + multiset(a[1..]);
      assert multiset(b) == multiset(b[..i]) + (multiset{b[i]} + multiset(b[i + 1..]));
      assert multiset(a[1..]) == multiset(a) - multiset{a[0]};
      assert multiset(b[..i] + b[i + 1..]) == multiset(b) - multiset{b[i]};
      CollectReordered(a[1..], b[..i] + b[i + 1..]);
      CollectConcat(b[..i], b[i + 1..]);
      CollectConcat(b[..i], [b[i]] + b[i + 1..]);
      assert ([b[i]] + b[i + 1..])[1..] == b[i + 1..];
    }
  }

  /** The order of the accounts may only permute messages received at the same instant. */
  lemma AccountOrderIsInvisible(a: seq<Inbox>, b: seq<Inbox>, limit: nat)
    requires multiset(a) == multiset(b)
    ensures Dates(Received, Aggregate(a, limit)) == Dates(Received, Aggregate(b, limit))
  {
    CollectReordered(a, b);
    SameContentsSameDates(Received, limit, Collect(a), Collect(b));
  }
}
