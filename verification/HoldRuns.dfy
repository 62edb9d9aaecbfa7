/** The steps of the ledger that one PreDeduct call takes, and what they amount to. */
module HoldRuns {
  import opened Prelude
  import opened Money
  import opened CacheScripts
  import opened Ledger

  /** The steps of one PreDeduct call: the script; and if a key was missing, the load, the loss of the keys before
      the retry if `lost`, and the script once more. */
  function PreDeductSteps(keys: Keys, id: string, user: int, cost: int, policy: Policy, lost: bool): seq<Step> {
    var first, last := Hold(id, user, cost, policy, false), Hold(id, user, cost, policy, true);
    if keys.Complete() then [first]
    else if lost then [first, Load(user), Drop(user), last]
    else [first, Load(user), last]
  }

  function AllPoolsIf(lost: bool): set<Pool> {
    if lost then {Sub, Grant, Cash} else {}
  }

  lemma HoldStepOn(s: State, id: string, user: int, cost: int, policy: Policy, lastTry: bool)
    requires id != "" && id !in s.requests && Known(s, user) && (s.cache[user].Complete() || lastTry)
    ensures var outcome, t := HoldFrom(PreDeductAnswer(s.cache[user], cost, policy)),
          HoldStep(s, id, user, cost, policy, lastTry);
      && t.cache == s.cache[user := AfterPreDeduct(s.cache[user], cost, policy)]
      && t.requests == if outcome.Held? then s.requests[id := Request(user, cost, outcome.pools, 0, ZERO, Open)]
                       else s.requests
  {
  }

  lemma RunOfThree(s: State, first: Step, second: Step, third: Step)
    ensures Run(s, [first, second, third]) == Next(Next(Next(s, first), second), third)
  {
    var rest, last := [second, third], [third];
    assert [first, second, third][1..] == rest && rest[1..] == last && last[1..] == [];
    var u := Next(s, first);
    assert Run(Next(u, second), last) == Run(Next(Next(u, second), third), []);
    assert Run(u, rest) == Run(Next(u, second), last);
  }

  lemma RunOfFour(s: State, first: Step, second: Step, third: Step, fourth: Step)
    ensures Run(s, [first, second, third, fourth]) == Next(Next(Next(Next(s, first), second), third), fourth)
  {
    assert [first, second, third, fourth][1..] == [second, third, fourth];
    RunOfThree(Next(s, first), second, third, fourth);
  }

  lemma FirstHoldMisses(s: State, id: string, user: int, cost: int, policy: Policy)
    requires id != "" && id !in s.requests && Known(s, user) && !s.cache[user].Complete()
    ensures HoldStep(s, id, user, cost, policy, false) == s
  {
  }

  lemma RetriedRun(s: State, id: string, user: int, cost: int, policy: Policy, lost: bool)
    requires id != "" && id !in s.requests && Known(s, user) && !s.cache[user].Complete()
    ensures var u := if lost then DropStep(LoadStep(s, user), user) else LoadStep(s, user);
      Run(s, PreDeductSteps(s.cache[user], id, user, cost, policy, lost)) == HoldStep(u, id, user, cost, policy, true)
  {
    var first, last := Hold(id, user, cost, policy, false), Hold(id, user, cost, policy, true);
    FirstHoldMisses(s, id, user, cost, policy);
    assert Next(s, first) == s;
    if lost {
      RunOfFour(s, first, Load(user), Drop(user), last);
    } else {
      RunOfThree(s, first, Load(user), last);
    }
  }

  /** The keys PreDeduct decides on once it has loaded them. */
  lemma RetriedOn(s: State, user: int, lost: bool)
    requires Known(s, user) && !s.cache[user].Complete()
    ensures var u := if lost then DropStep(LoadStep(s, user), user) else LoadStep(s, user);
      && Known(u, user) && u.requests == s.requests
      && u.cache == s.cache[user := KeysDecidedOn(s.cache[user], Some(s.books.users[user].balance), AllPoolsIf(lost))]
  {
  }

  /** A PreDeduct call is a run of the ledger: the keys end as the call leaves them, and there is a request that
      holds what the call reports, or none if it reports an insufficient balance. */
  predicate RunsAsCalled(s: State, t: State, id: string, user: int, cost: int, policy: Policy, decided: Keys)
    requires user in s.cache
  {
    var outcome := HoldFrom(PreDeductAnswer(decided, cost, policy));
    && t.cache == s.cache[user := AfterPreDeduct(decided, cost, policy)]
    && t.requests == if outcome.Held? then s.requests[id := Request(user, cost, outcome.pools, 0, ZERO, Open)]
                     else s.requests
  }

  lemma HitIsARun(s: State, id: string, user: int, cost: int, policy: Policy, lost: bool)
    requires id != "" && id !in s.requests && Known(s, user) && s.cache[user].Complete()
    ensures RunsAsCalled(s, Run(s, PreDeductSteps(s.cache[user], id, user, cost, policy, lost)), id, user, cost, policy,
                         s.cache[user])
  {
    var step := Hold(id, user, cost, policy, false);
    HoldStepOn(s, id, user, cost, policy, false);
    assert Run(s, [step]) == Run(Next(s, step), []);
  }

  lemma SameCacheRuns(s: State, u: State, t: State, id: string, user: int, cost: int, policy: Policy, decided: Keys)
    requires user in s.cache && u.cache == s.cache[user := decided] && u.requests == s.requests
    requires RunsAsCalled(u, t, id, user, cost, policy, decided)
    ensures RunsAsCalled(s, t, id, user, cost, policy, decided)
  {
  }

  lemma MissIsARun(s: State, id: string, user: int, cost: int, policy: Policy, lost: bool, decided: Keys)
    requires id != "" && id !in s.requests && Known(s, user) && !s.cache[user].Complete()
    requires decided == KeysDecidedOn(s.cache[user], Some(s.books.users[user].balance), AllPoolsIf(lost))
    ensures RunsAsCalled(s, Run(s, PreDeductSteps(s.cache[user], id, user, cost, policy, lost)), id, user, cost, policy,
                         decided)
  {
    RetriedRun(s, id, user, cost, policy, lost);
    RetriedOn(s, user, lost);
    var u := if lost then DropStep(LoadStep(s, user), user) else LoadStep(s, user);
    HoldStepOn(u, id, user, cost, policy, true);
    SameCacheRuns(s, u, HoldStep(u, id, user, cost, policy, true), id, user, cost, policy, decided);
  }

  lemma PreDeductIsARun(s: State, id: string, user: int, cost: int, policy: Policy, lost: bool)
    requires id != "" && id !in s.requests && Known(s, user)
    ensures RunsAsCalled(s, Run(s, PreDeductSteps(s.cache[user], id, user, cost, policy, lost)), id, user, cost, policy,
                         KeysDecidedOn(s.cache[user], Some(s.books.users[user].balance), AllPoolsIf(lost)))
  {
    if s.cache[user].Complete() {
      HitIsARun(s, id, user, cost, policy, lost);
    } else {
      MissIsARun(s, id, user, cost, policy, lost,
                 KeysDecidedOn(s.cache[user], Some(s.books.users[user].balance), AllPoolsIf(lost)));
    }
  }
}
