/** Conservation, audit and idempotence of the books, over every run of database transactions. */
module BooksProofs {
  import opened Prelude
  import opened Money
  import opened Books

  // Conservation: the quantities below are constants of motion for each user.

  /** Real money on the books less what the tables say came in, plus what they say went out. */
  function RealBase(b: Books, user: int): int
    requires user in b.users
  {
    var balance, posted := b.users[user].balance, PostedTo(b.billingLogs, user);
    balance.sub + balance.cash - LedgerOf(b.transactions, user).money + posted.sub + posted.cash
  }

  /** The same for the grant pool, where each subscription change also forfeits what is left. */
  function GrantBase(b: Books, user: int): int
    requires user in b.users
  {
    var ledger := LedgerOf(b.transactions, user);
    b.users[user].balance.grant - ledger.granted + ledger.forfeited + PostedTo(b.billingLogs, user).grant
  }

  /** The same for cash alone, read off the cash balance logs. */
  function AuditBase(b: Books, user: int): int
    requires user in b.users
  {
    b.users[user].balance.cash - CashLogged(b.balanceLogs, user) + PostedTo(b.billingLogs, user).cash
    - LedgerOf(b.transactions, user).unlogged
  }

  lemma ChargeMoves(b: Books, m: Message, shares: Pools, user: int)
    requires m.user in b.users && user in b.users
    ensures var now, moved := Charged(b, m, shares), if m.user == user then shares else ZERO;
      && now.users.Keys == b.users.Keys
      && now.users[user].balance == b.users[user].balance.Minus(moved)
      && now.transactions == b.transactions && now.balanceLogs == b.balanceLogs
      && PostedTo(now.billingLogs, user) == PostedTo(b.billingLogs, user).Plus(moved)
  {
    PostedToGrows(b.billingLogs, BillingLog(m.id, m.user, m.actual, shares), user);
  }

  lemma ChargeKeepsBases(b: Books, m: Message, shares: Pools, user: int)
    requires m.user in b.users && user in b.users
    ensures Charged(b, m, shares).users.Keys == b.users.Keys
    ensures RealBase(Charged(b, m, shares), user) == RealBase(b, user)
    ensures GrantBase(Charged(b, m, shares), user) == GrantBase(b, user)
    ensures AuditBase(Charged(b, m, shares), user) == AuditBase(b, user)
  {
    ChargeMoves(b, m, shares, user);
  }

  lemma PostKeepsBases(b: Books, m: Message, user: int)
    requires user in b.users
    ensures Post(b, m).users.Keys == b.users.Keys
    ensures RealBase(Post(b, m), user) == RealBase(b, user)
    ensures GrantBase(Post(b, m), user) == GrantBase(b, user)
    ensures AuditBase(Post(b, m), user) == AuditBase(b, user)
  {
    if m.user in b.users {
      ChargeKeepsBases(b, m, Shares(m), user);
    }
  }

  lemma TransactKeepsBases(b: Books, req: TransactionRequest, user: int)
    requires user in b.users
    ensures Transact(b, req).users.Keys == b.users.Keys
    ensures RealBase(Transact(b, req), user) == RealBase(b, user)
    ensures GrantBase(Transact(b, req), user) == GrantBase(b, user)
    ensures AuditBase(Transact(b, req), user) == AuditBase(b, user)
  {
    var after := Transact(b, req);
    if TransactStatus(b, req) == Done {
      LedgerOfGrows(b.transactions, after.transactions[|b.transactions|], user);
      CashLoggedGrows(b.balanceLogs, after.balanceLogs[|b.balanceLogs|], user);
    }
  }

  lemma ApplyKeepsMoney(b: Books, a: SubscriptionApply, seen: Reading, user: int)
    requires user in b.users
    ensures Apply(b, a, seen).users.Keys == b.users.Keys
    ensures RealBase(Apply(b, a, seen), user) == RealBase(b, user)
    ensures GrantBase(Apply(b, a, seen), user) == GrantBase(b, user)
  {
    if Applies(b, a) {
      LedgerOfGrows(b.transactions, Apply(b, a, seen).transactions[|b.transactions|], user);
    }
  }

  lemma ApplyLogsCash(b: Books, a: SubscriptionApply, seen: Reading, user: int)
    requires Applies(b, a)
    ensures CashLogged(Apply(b, a, seen).balanceLogs, user)
         == CashLogged(b.balanceLogs, user) + if a.user == user then Max(seen.moved, 0) else 0
  {
    var after, prior, moved := Apply(b, a, seen), seen.prior, seen.moved;
    var issue := BalanceLog(a.user, SubscriptionLog, a.paid + a.grant, prior.sub + prior.grant, a.paid + a.grant);
    CashLoggedGrows(b.balanceLogs, issue, user);
    if moved > 0 {
      CashLoggedGrows(b.balanceLogs + [issue],
          BalanceLog(a.user, CashLog, moved, prior.cash, prior.cash + moved), user);
    } else {
      assert after.balanceLogs == b.balanceLogs + [issue];
    }
  }

  lemma ApplyKeepsAudit(b: Books, a: SubscriptionApply, seen: Reading, user: int)
    requires user in b.users
    ensures user in Apply(b, a, seen).users && AuditBase(Apply(b, a, seen), user) == AuditBase(b, user)
  {
    if Applies(b, a) {
      LedgerOfGrows(b.transactions, Apply(b, a, seen).transactions[|b.transactions|], user);
      ApplyLogsCash(b, a, seen, user);
    }
  }

  lemma ApplyKeepsBases(b: Books, a: SubscriptionApply, seen: Reading, user: int)
    requires user in b.users
    ensures Apply(b, a, seen).users.Keys == b.users.Keys
    ensures RealBase(Apply(b, a, seen), user) == RealBase(b, user)
    ensures GrantBase(Apply(b, a, seen), user) == GrantBase(b, user)
    ensures AuditBase(Apply(b, a, seen), user) == AuditBase(b, user)
  {
    ApplyKeepsMoney(b, a, seen, user);
    ApplyKeepsAudit(b, a, seen, user);
  }

  lemma {:induction false} RunKeepsBases(b: Books, entries: seq<Entry>, user: int)
    requires user in b.users
    ensures EnterAll(b, entries).users.Keys == b.users.Keys
    ensures RealBase(EnterAll(b, entries), user) == RealBase(b, user)
    ensures GrantBase(EnterAll(b, entries), user) == GrantBase(b, user)
    ensures AuditBase(EnterAll(b, entries), user) == AuditBase(b, user)
    decreases |entries|
  {
    if entries != [] {
      match entries[0] {
        case Posting(m) => PostKeepsBases(b, m, user);
        case Moving(req) => TransactKeepsBases(b, req, user);
        case Applying(a, seen) => ApplyKeepsBases(b, a, seen, user);
      }
      RunKeepsBases(Enter(b, entries[0]), entries[1..], user);
    }
  }

  /** Books with empty tables: every row there will ever be is a row of the run. */
  predicate Opening(b: Books) {
    b.billingLogs == [] && b.transactions == [] && b.balanceLogs == []
  }

  /** Real money is conserved across any run of postings, top-ups, debits and subscription changes,
      even when a late posting drives sub negative; the grant pool alone forfeits, and by exactly
      what each subscription change found in it. */
  lemma RealMoneyConserved(b: Books, entries: seq<Entry>, user: int)
    requires Opening(b) && user in b.users
    ensures var now := EnterAll(b, entries);
      && user in now.users
      && var opening, balance := b.users[user].balance, now.users[user].balance;
         var ledger, posted := LedgerOf(now.transactions, user), PostedTo(now.billingLogs, user);
         && balance.sub + balance.cash == opening.sub + opening.cash + ledger.money - posted.sub - posted.cash
         && balance.grant == opening.grant + ledger.granted - ledger.forfeited - posted.grant
  {
    RunKeepsBases(b, entries, user);
  }

  /** What the cash balance logs and posted usage say the cash balance should be. */
  function AuditedCash(opening: Books, now: Books, user: int): int
    requires user in opening.users
  {
    opening.users[user].balance.cash + CashLogged(now.balanceLogs, user) - PostedTo(now.billingLogs, user).cash
  }

  /** The cash balance is off by the sub balances carried into it beyond what was logged as moved, whatever the
      changes had read; so the audit holds if and only if these add up to nothing. */
  lemma AuditReconcilesExactly(b: Books, entries: seq<Entry>, user: int)
    requires Opening(b) && user in b.users
    ensures var now := EnterAll(b, entries);
      && user in now.users
      && var off := LedgerOf(now.transactions, user).unlogged;
         && now.users[user].balance.cash == AuditedCash(b, now, user) + off
         && (now.users[user].balance.cash == AuditedCash(b, now, user) <==> off == 0)
  {
    RunKeepsBases(b, entries, user);
  }

  /** No subscription change of this user was overtaken between its reading and its update. */
  predicate NoneOvertaken(transactions: seq<Transaction>, user: int) {
    forall k :: 0 <= k < |transactions| && transactions[k].Subscription? && transactions[k].user == user
                ==> transactions[k].moved == transactions[k].carried
  }

  /** No subscription change of this user met a negative sub balance. */
  predicate CarriesNonNegative(transactions: seq<Transaction>, user: int) {
    forall k :: 0 <= k < |transactions| && transactions[k].Subscription? && transactions[k].user == user
                ==> 0 <= transactions[k].carried
  }

  lemma {:induction false} UnloggedIsNegative(transactions: seq<Transaction>, user: int)
    requires NoneOvertaken(transactions, user)
    ensures LedgerOf(transactions, user).unlogged <= 0
    ensures LedgerOf(transactions, user).unlogged == 0 <==> CarriesNonNegative(transactions, user)
  {
    if transactions != [] {
      var init, last := transactions[..|transactions| - 1], transactions[|transactions| - 1];
      assert forall k :: 0 <= k < |init| ==> init[k] == transactions[k];
      UnloggedIsNegative(init, user);
      assert CarriesNonNegative(transactions, user)
         <==> CarriesNonNegative(init, user) && (last.Subscription? && last.user == user ==> 0 <= last.carried);
    }
  }

  /** Among changes that nothing overtook, it holds if and only if none carried a negative sub balance. */
  lemma AuditOfSerialChanges(b: Books, entries: seq<Entry>, user: int)
    requires Opening(b) && user in b.users && NoneOvertaken(EnterAll(b, entries).transactions, user)
    ensures var now := EnterAll(b, entries);
      && user in now.users
      && (now.users[user].balance.cash == AuditedCash(b, now, user) <==> CarriesNonNegative(now.transactions, user))
  {
    AuditReconcilesExactly(b, entries, user);
    UnloggedIsNegative(EnterAll(b, entries).transactions, user);
  }

  lemma EnterTwo(b: Books, e1: Entry, e2: Entry)
    ensures EnterAll(b, [e1, e2]) == Enter(Enter(b, e1), e2)
  {
    assert [e1, e2][1..] == [e2] && [e2][1..] == [];
    assert EnterAll(Enter(b, e1), [e2]) == EnterAll(Enter(Enter(b, e1), e2), []);
  }

  lemma EnterThree(b: Books, e1: Entry, e2: Entry, e3: Entry)
    ensures EnterAll(b, [e1, e2, e3]) == Enter(Enter(Enter(b, e1), e2), e3)
  {
    assert [e1, e2, e3][1..] == [e2, e3];
    EnterTwo(Enter(b, e1), e2, e3);
  }

  lemma ChangeUnlogs(b: Books, a: SubscriptionApply, seen: Reading)
    requires Applies(b, a)
    ensures LedgerOf(Apply(b, a, seen).transactions, a.user).unlogged
         == LedgerOf(b.transactions, a.user).unlogged + b.users[a.user].balance.sub - Max(seen.moved, 0)
  {
    LedgerOfGrows(b.transactions, Apply(b, a, seen).transactions[|b.transactions|], a.user);
  }

  lemma PostedFromSub(b: Books, m: Message)
    requires b.billingLogs == [] && m.user in b.users && 0 < m.actual <= m.hold.sub
    ensures m.user in Post(b, m).users
    ensures Post(b, m).users[m.user].balance.sub == b.users[m.user].balance.sub - m.actual
    ensures Post(b, m).transactions == b.transactions
  {
    assert Shares(m).sub == m.actual;
  }

  /** The audit fails without any overlap, from every opening balance: a hold taken from sub is posted after a
      subscription change has moved that sub to cash, and the next change carries the negative balance
      unlogged. */
  lemma AuditMissesLatePosting(b: Books, user: int, m: Message, renew: SubscriptionApply, cancel: SubscriptionApply)
    requires Opening(b) && user in b.users
    requires m.user == user && 0 < m.actual <= m.hold.sub && renew.user == cancel.user == user
    requires renew.event != cancel.event && renew.paid == 0
    ensures var renewed := Apply(b, renew, Unovertaken(b, user));
      && user in Post(renewed, m).users
      && var now := EnterAll(b, [Applying(renew, Unovertaken(b, user)), Posting(m),
                                 Applying(cancel, Unovertaken(Post(renewed, m), user))]);
         user in now.users && now.users[user].balance.cash < AuditedCash(b, now, user)
  {
    var first := Unovertaken(b, user);
    var renewed := Apply(b, renew, first);
    PostedFromSub(renewed, m);
    var posted := Post(renewed, m);
    var second := Unovertaken(posted, user);
    ChangeUnlogs(b, renew, first);
    assert renewed.transactions[0].event == renew.event && |renewed.transactions| == 1;
    ChangeUnlogs(posted, cancel, second);
    EnterThree(b, Applying(renew, first), Posting(m), Applying(cancel, second));
    AuditReconcilesExactly(b, [Applying(renew, first), Posting(m), Applying(cancel, second)], user);
  }

  /** It fails with no negative balance anywhere when a posting from sub commits between a change's reading and
      its update: the log says more moved than did. */
  lemma AuditMissesStaleReading(b: Books, m: Message, a: SubscriptionApply)
    requires Opening(b) && a.user in b.users
    requires m.user == a.user && 0 < m.actual <= m.hold.sub && m.actual <= b.users[a.user].balance.sub
    ensures var now := EnterAll(b, [Posting(m), Applying(a, Unovertaken(b, a.user))]);
      && a.user in now.users && CarriesNonNegative(now.transactions, a.user)
      && now.users[a.user].balance.cash == AuditedCash(b, now, a.user) - m.actual
  {
    var seen := Unovertaken(b, a.user);
    PostedFromSub(b, m);
    ChangeUnlogs(Post(b, m), a, seen);
    EnterTwo(b, Posting(m), Applying(a, seen));
    AuditReconcilesExactly(b, [Posting(m), Applying(a, seen)], a.user);
  }

  // Idempotence of ledger events.

  function EventOf(e: Entry): EventId {
    match e
    case Posting(_) => NoEvent
    case Moving(req) => req.event
    case Applying(a, _) => a.event
  }

  /** Non-empty event ids are unique in the transactions ledger. */
  ghost predicate EventsUnique(transactions: seq<Transaction>) {
    forall i, j :: 0 <= i < j < |transactions| && transactions[i].event != NoEvent
                   ==> transactions[i].event != transactions[j].event
  }

  lemma EnterKeepsEvents(b: Books, e: Entry)
    requires EventsUnique(b.transactions)
    ensures EventsUnique(Enter(b, e).transactions)
    ensures b.transactions <= Enter(b, e).transactions
    ensures Enter(b, e).transactions != b.transactions
            ==> Enter(b, e).transactions[|b.transactions|].event == EventOf(e)
    ensures EventOf(e) != NoEvent && Recorded(b.transactions, EventOf(e)) ==> Enter(b, e) == b
  {
  }

  /** Over any run, each non-empty event id enters the ledger at most once and never leaves it. */
  lemma {:induction false} EventsEnterOnce(b: Books, entries: seq<Entry>)
    requires EventsUnique(b.transactions)
    ensures EventsUnique(EnterAll(b, entries).transactions)
    ensures b.transactions <= EnterAll(b, entries).transactions
    decreases |entries|
  {
    if entries != [] {
      EnterKeepsEvents(b, entries[0]);
      EventsEnterOnce(Enter(b, entries[0]), entries[1..]);
    }
  }

  lemma {:induction false} EnterAllAppend(b: Books, first: seq<Entry>, second: seq<Entry>)
    ensures EnterAll(b, first + second) == EnterAll(EnterAll(b, first), second)
    decreases |first|
  {
    if first == [] {
      assert first + second == second;
    } else {
      assert (first + second)[0] == first[0] && (first + second)[1..] == first[1..] + second;
      EnterAllAppend(Enter(b, first[0]), first[1..], second);
    }
  }

  /** Replays vanish: once an event is recorded, delivering it again at any later point of any run
      changes nothing at all. */
  lemma ReplayedEventVanishes(b: Books, before: seq<Entry>, replay: Entry, after: seq<Entry>)
    requires EventsUnique(b.transactions)
    requires EventOf(replay) != NoEvent && Recorded(EnterAll(b, before).transactions, EventOf(replay))
    ensures EnterAll(b, before + [replay] + after) == EnterAll(b, before + after)
  {
    var mid := EnterAll(b, before);
    EventsEnterOnce(b, before);
    EnterKeepsEvents(mid, replay);
    EnterAllAppend(b, before, [replay]);
    EnterAllAppend(b, before + [replay], after);
    EnterAllAppend(b, before, after);
    assert EnterAll(mid, [replay]) == EnterAll(Enter(mid, replay), []);
  }
}
