/**
 Several handlers of the billing worker on one message at once. The table has no unique index on the
 request id, so what keeps a charge single is that a handler's check sees the other's commit; here the
 check and the commit are steps of their own.
 */
module WorkerOverlap {
  import opened Money
  import opened Books
  import PostingProofs

  datatype Move = Checks(handler: int) | Commits(handler: int)

  /** The books, and the handlers whose check found no log and which have not committed. */
  datatype Shop = Shop(books: Books, cleared: set<int>)

  function AfterMove(shop: Shop, m: Message, move: Move): Shop
    requires m.user in shop.books.users
  {
    match move
    case Checks(h) =>
      if m.id != "" && Billed(shop.books.billingLogs, m.id) then shop else shop.(cleared := shop.cleared + {h})
    case Commits(h) =>
      if h in shop.cleared then Shop(Charged(shop.books, m, Shares(m)), shop.cleared - {h}) else shop
  }

  function AfterMoves(books: Books, m: Message, moves: seq<Move>): (shop: Shop)
    requires m.user in books.users
    ensures shop.books.users.Keys == books.users.Keys
  {
    if moves == [] then Shop(books, {})
        else AfterMove(AfterMoves(books, m, moves[..|moves| - 1]), m, moves[|moves| - 1])
  }

  /** The handlers that charge: those that commit, having checked before any of them had committed. */
  function Chargers(moves: seq<Move>): set<int> {
    if moves == [] then {}
    else
      var init, last := moves[..|moves| - 1], moves[|moves| - 1];
      Chargers(init) + if last.Commits? && last.handler in Early(init) then {last.handler} else {}
  }

  /** The handlers that checked before any charge was committed. */
  function Early(moves: seq<Move>): set<int> {
    if moves == [] then {}
    else
      var init, last := moves[..|moves| - 1], moves[|moves| - 1];
      Early(init) + if last.Checks? && Chargers(init) == {} then {last.handler} else {}
  }

  function ChargedTimes(books: Books, m: Message, shares: Pools, n: nat): (charged: Books)
    requires m.user in books.users
    ensures charged.users.Keys == books.users.Keys
  {
    if n == 0 then books else Charged(ChargedTimes(books, m, shares, n - 1), m, shares)
  }

  lemma {:induction false} BilledOnceCharged(books: Books, m: Message, shares: Pools, n: nat)
    requires m.user in books.users && !Billed(books.billingLogs, m.id)
    ensures Billed(ChargedTimes(books, m, shares, n).billingLogs, m.id) <==> 0 < n
  {
    if 0 < n {
      var prior := ChargedTimes(books, m, shares, n - 1);
      PostingProofs.BilledGrows(prior.billingLogs, BillingLog(m.id, m.user, m.actual, shares), m.id);
    }
  }

  /** What a message with an id costs when handlers overlap: one charge for each handler whose check
      precedes the first commit and which commits, however their moves interleave. */
  lemma {:induction false} OverlappingHandlersCharge(books: Books, m: Message, moves: seq<Move>)
    requires m.user in books.users && m.id != "" && !Billed(books.billingLogs, m.id)
    ensures AfterMoves(books, m, moves)
         == Shop(ChargedTimes(books, m, Shares(m), |Chargers(moves)|), Early(moves) - Chargers(moves))
  {
    if moves != [] {
      var init, last := moves[..|moves| - 1], moves[|moves| - 1];
      OverlappingHandlersCharge(books, m, init);
      BilledOnceCharged(books, m, Shares(m), |Chargers(init)|);
      MoveTracks(books, m, Chargers(init), Early(init), last);
    }
  }

  lemma MoveTracks(books: Books, m: Message, chargers: set<int>, early: set<int>, move: Move)
    requires m.user in books.users && m.id != ""
    requires Billed(ChargedTimes(books, m, Shares(m), |chargers|).billingLogs, m.id) <==> 0 < |chargers|
    ensures var chargers' := chargers + if move.Commits? && move.handler in early then {move.handler} else {};
      var early' := early + if move.Checks? && chargers == {} then {move.handler} else {};
      AfterMove(Shop(ChargedTimes(books, m, Shares(m), |chargers|), early - chargers), m, move)
        == Shop(ChargedTimes(books, m, Shares(m), |chargers'|), early' - chargers')
  {
    match move
    case Checks(h) =>
      NoneCharged(chargers);
      assert chargers + {} == chargers && early + {} == early;
      assert chargers == {} ==> early + {h} - chargers == early - chargers + {h};
    case Commits(h) =>
      CommitCounts(chargers, early, h);
      assert early + {} == early;
  }

  lemma NoneCharged(chargers: set<int>)
    ensures 0 < |chargers| <==> chargers != {}
  {
  }

  lemma CommitCounts(chargers: set<int>, early: set<int>, h: int)
    ensures var chargers' := chargers + if h in early then {h} else {};
      && |chargers'| == |chargers| + (if h in early - chargers then 1 else 0)
      && early - chargers' == early - chargers - {h}
      && (h !in early - chargers ==> early - chargers - {h} == early - chargers)
  {
    if h in early && h in chargers {
      assert chargers + {h} == chargers;
    }
  }

  function Times(n: nat, shares: Pools): Pools {
    Pools(n * shares.sub, n * shares.grant, n * shares.cash)
  }

  lemma OneMoreTime(n: nat, shares: Pools)
    requires 0 < n
    ensures Times(n, shares) == Times(n - 1, shares).Plus(shares)
  {
  }

  /** A user's row after n charges. */
  lemma {:induction false} ChargesAddUp(books: Books, m: Message, shares: Pools, n: nat)
    requires m.user in books.users
    ensures ChargedTimes(books, m, shares, n).users[m.user]
         == Adjust(books.users[m.user], ZERO.Minus(Times(n, shares)))
  {
    if 0 < n {
      ChargesAddUp(books, m, shares, n - 1);
      OneMoreTime(n, shares);
      PostingProofs.AdjustTwice(books.users[m.user], Times(n - 1, shares), shares);
    } else {
      assert ZERO.Minus(Times(0, shares)) == ZERO;
    }
  }

  /** The balance is right if and only if exactly one handler checked before the first commit and committed,
      or the message charges nothing. */
  lemma ChargedOnceExactly(books: Books, m: Message, moves: seq<Move>)
    requires m.user in books.users && m.id != "" && !Billed(books.billingLogs, m.id)
    ensures AfterMoves(books, m, moves).books.users[m.user] == Post(books, m).users[m.user]
       <==> |Chargers(moves)| == 1 || Shares(m) == ZERO
  {
    OverlappingHandlersCharge(books, m, moves);
    ChargesAddUp(books, m, Shares(m), |Chargers(moves)|);
    PostedRow(books, m);
    SameBalance(books.users[m.user], |Chargers(moves)|, Shares(m));
  }

  lemma PostedRow(books: Books, m: Message)
    requires m.user in books.users && !Billed(books.billingLogs, m.id)
    ensures Post(books, m) == ChargedTimes(books, m, Shares(m), 1)
    ensures Post(books, m).users[m.user] == Adjust(books.users[m.user], ZERO.Minus(Shares(m)))
  {
    assert ChargedTimes(books, m, Shares(m), 1) == Charged(ChargedTimes(books, m, Shares(m), 0), m, Shares(m));
  }

  lemma SameBalance(user: User, n: nat, shares: Pools)
    ensures Adjust(user, ZERO.Minus(Times(n, shares))) == Adjust(user, ZERO.Minus(shares)) <==> n == 1 || shares == ZERO
  {
    SameProduct(n, shares.sub);
    SameProduct(n, shares.grant);
    SameProduct(n, shares.cash);
  }

  lemma SameProduct(n: nat, x: int)
    ensures n * x == x <==> n == 1 || x == 0
  {
    assert n * x == x <==> (n - 1) * x == 0;
  }

  /** Handlers that do not overlap: each commits before the next one checks. */
  function Serial(handlers: seq<int>): seq<Move> {
    if handlers == [] then []
    else Serial(handlers[..|handlers| - 1]) + [Checks(handlers[|handlers| - 1]), Commits(handlers[|handlers| - 1])]
  }

  lemma OneMove(moves: seq<Move>, move: Move)
    ensures Chargers(moves + [move])
         == Chargers(moves) + if move.Commits? && move.handler in Early(moves) then {move.handler} else {}
    ensures Early(moves + [move]) == Early(moves) + if move.Checks? && Chargers(moves) == {} then {move.handler} else {}
  {
    assert (moves + [move])[..|moves|] == moves;
  }

  lemma OneHandler(moves: seq<Move>, h: int)
    requires Early(moves) == Chargers(moves)
    ensures var all := moves + [Checks(h), Commits(h)];
            Early(all) == Chargers(all) == if Chargers(moves) == {} then {h} else Chargers(moves)
  {
    var checked := moves + [Checks(h)];
    OneMove(moves, Checks(h));
    OneMove(checked, Commits(h));
    assert moves + [Checks(h), Commits(h)] == checked + [Commits(h)];
    Grown(Chargers(moves), h);
  }

  lemma Grown(s: set<int>, h: int)
    ensures s + {} == s && {} + {h} == {h} && (h in s ==> s + {h} == s)
  {
  }

  /** Whoever checked early in a serial run has committed: the first handler and no other. */
  lemma {:induction false} SerialCommits(handlers: seq<int>)
    ensures Early(Serial(handlers)) == Chargers(Serial(handlers)) == if handlers == [] then {} else {handlers[0]}
  {
    if handlers != [] {
      SerialCommits(handlers[..|handlers| - 1]);
      OneHandler(Serial(handlers[..|handlers| - 1]), handlers[|handlers| - 1]);
    }
  }

  /** Without overlap the message is charged once, as the one-step posting says. */
  lemma SerialHandlersPost(books: Books, m: Message, handlers: seq<int>)
    requires m.user in books.users && m.id != "" && !Billed(books.billingLogs, m.id)
    ensures AfterMoves(books, m, Serial(handlers)).books == if handlers == [] then books else Post(books, m)
  {
    OverlappingHandlersCharge(books, m, Serial(handlers));
    SerialCommits(handlers);
    PostedRow(books, m);
  }

  lemma TwoMoves(books: Books, m: Message, moves: seq<Move>, first: Move, second: Move)
    requires m.user in books.users
    ensures AfterMoves(books, m, moves + [first, second])
         == AfterMove(AfterMove(AfterMoves(books, m, moves), m, first), m, second)
  {
    assert moves + [first, second] == (moves + [first]) + [second];
    assert (moves + [first])[..|moves|] == moves;
    assert (moves + [first, second])[..|moves| + 1] == moves + [first];
  }

  /** Without an id nothing is ever found billed: every handler charges. */
  lemma {:induction false} HandlersWithoutIdCharge(books: Books, m: Message, handlers: seq<int>)
    requires m.user in books.users && m.id == ""
    ensures AfterMoves(books, m, Serial(handlers)) == Shop(ChargedTimes(books, m, Shares(m), |handlers|), {})
  {
    if handlers != [] {
      var init, h := handlers[..|handlers| - 1], handlers[|handlers| - 1];
      HandlersWithoutIdCharge(books, m, init);
      TwoMoves(books, m, Serial(init), Checks(h), Commits(h));
      assert {} + {h} - {h} == {};
    }
  }
}
