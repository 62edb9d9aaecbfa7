/**
 A hold finalised twice, as overlapping task handlers do it: both scripts move the cache, but the two
 messages carry one request id, so the worker posts only the one that is delivered first.
 */
module SecondFinalisation {
  import opened Money
  import opened CacheScripts
  import opened Books
  import opened Settlement
  import opened Ledger
  import opened LedgerInvariant
  import opened PostingProofs

  /** Two settlements of one hold on record, at costs within it. */
  predicate SameHold(first: Message, second: Message) {
    && first.id == second.id != "" && first.user == second.user
    && first.hold == second.hold && first.hold.NonNegative()
    && first.recorded == second.recorded == first.hold.Total()
    && 0 <= first.actual <= first.recorded && 0 <= second.actual <= first.recorded
  }

  function GivenFor(m: Message): Pools {
    Given(m.recorded, m.actual, m.hold)
  }

  /** The keys after both scripts, whatever else moves them after the hold and in between. */
  function TwiceSettled(keys: Keys, first: Message, second: Message, policy: Policy, earlier: Pools,
                        later: Pools): Keys {
    SettledKeys(Shift(SettledKeys(Shift(keys, earlier), first, policy), later), second, policy)
  }

  /** What is given back is what the message does not charge: nothing exactly if it charges the whole hold. */
  lemma Kept(m: Message)
    requires m.hold.NonNegative() && 0 <= m.actual <= m.recorded == m.hold.Total()
    ensures m.hold.Minus(GivenFor(m)) == Shares(m)
    ensures GivenFor(m) == ZERO <==> m.actual == m.recorded
  {
    GivenIsReleased(m.recorded, m.actual, m.hold);
    if m.actual < m.recorded {
      GiveBackDrains(m.recorded - m.actual, m.hold);
      DrainedLeavesPoured(m.recorded - m.actual, m.hold);
    }
  }

  lemma GivesBack(keys: Keys, m: Message, policy: Policy)
    requires keys.Complete() && m.actual <= m.recorded
    ensures SettledKeys(keys, m, policy) == Shift(keys, GivenFor(m))
  {
    NoShift(keys);
  }

  lemma NoShift(keys: Keys)
    requires keys.Complete()
    ensures Shift(keys, ZERO) == keys
  {
  }

  lemma FourShifts(keys: Keys, a: Pools, b: Pools, c: Pools, d: Pools)
    requires keys.Complete()
    ensures Shift(Shift(Shift(Shift(keys, a), b), c), d) == Shift(keys, a.Plus(b).Plus(c).Plus(d))
  {
    ShiftAdds(keys, a, b);
    ShiftAdds(keys, a.Plus(b), c);
    ShiftAdds(keys, a.Plus(b).Plus(c), d);
  }

  lemma BothScripts(keys: Keys, first: Message, second: Message, policy: Policy, earlier: Pools, later: Pools)
    requires keys.Complete() && SameHold(first, second)
    ensures TwiceSettled(keys, first, second, policy, earlier, later)
         == Shift(keys, earlier.Plus(GivenFor(first)).Plus(later).Plus(GivenFor(second)))
  {
    GivesBack(Shift(keys, earlier), first, policy);
    GivesBack(Shift(Shift(Shift(keys, earlier), GivenFor(first)), later), second, policy);
    FourShifts(keys, earlier, GivenFor(first), later, GivenFor(second));
  }

  predicate Only(ms: seq<Message>, first: Message, second: Message) {
    ms != [] && forall k :: 0 <= k < |ms| ==> ms[k] == first || ms[k] == second
  }

  lemma FirstOf(b: Books, m: Message)
    requires m.user in b.users && !Billed(b.billingLogs, m.id)
    ensures PostAll(b, [m]) == Post(b, m) && Billed(Post(b, m).billingLogs, m.id)
  {
    assert [m][..0] == [] && PostAll(b, [m]) == Post(PostAll(b, [m][..0]), m);
    FirstPosting(b, m, m.user);
  }

  /** However often and in whatever order the two messages are delivered, only the first delivery charges. */
  lemma {:induction false} FirstDeliveryCharges(b: Books, first: Message, second: Message, ms: seq<Message>)
    requires SameHold(first, second) && first.user in b.users && !Billed(b.billingLogs, first.id)
    requires Only(ms, first, second)
    ensures PostAll(b, ms) == Post(b, ms[0]) && Billed(PostAll(b, ms).billingLogs, first.id)
  {
    if |ms| == 1 {
      assert ms == [ms[0]];
      FirstOf(b, ms[0]);
    } else {
      var init, last := ms[..|ms| - 1], ms[|ms| - 1];
      assert Only(init, first, second) && last.id == first.id;
      FirstDeliveryCharges(b, first, second, init);
      assert Post(PostAll(b, init), last) == PostAll(b, init);
    }
  }

  lemma PostedBalance(b: Books, m: Message)
    requires m.user in b.users && !Billed(b.billingLogs, m.id)
    ensures m.user in Post(b, m).users
    ensures Post(b, m).users[m.user].balance == b.users[m.user].balance.Minus(Shares(m))
  {
  }

  lemma Regrouped(hold: Pools, earlier: Pools, later: Pools, g1: Pools, g2: Pools)
    ensures var sum := earlier.Minus(hold).Plus(g1).Plus(later).Plus(g2);
      && sum == earlier.Plus(later).Minus(hold.Minus(g1)).Plus(g2)
      && sum == earlier.Plus(later).Minus(hold.Minus(g2)).Plus(g1)
  {
  }

  /** Whichever of the two charges, the other one's give-back is left over. */
  lemma CacheAfterBoth(keys: Keys, first: Message, second: Message, policy: Policy, earlier: Pools, later: Pools)
    requires keys.Complete() && SameHold(first, second)
    ensures var after := TwiceSettled(keys, first, second, policy, earlier.Minus(first.hold), later);
      && after == Shift(keys, earlier.Plus(later).Minus(Shares(first)).Plus(GivenFor(second)))
      && after == Shift(keys, earlier.Plus(later).Minus(Shares(second)).Plus(GivenFor(first)))
  {
    BothScripts(keys, first, second, policy, earlier.Minus(first.hold), later);
    Regrouped(first.hold, earlier, later, GivenFor(first), GivenFor(second));
    Kept(first);
    Kept(second);
  }

  /** After a hold, two finalisations of it, any other movement of the keys and any deliveries of the two
      messages, the cache has moved against the database by exactly what the script of the message that is not
      posted gave back: nothing if and only if that one charged the whole hold. */
  lemma SecondFinalisationGivesAway(keys: Keys, b: Books, first: Message, second: Message, policy: Policy,
                                    earlier: Pools, later: Pools, ms: seq<Message>)
    requires keys.Complete() && SameHold(first, second)
    requires first.user in b.users && !Billed(b.billingLogs, first.id)
    requires Only(ms, first, second)
    ensures var after := TwiceSettled(keys, first, second, policy, earlier.Minus(first.hold), later);
      var charged, unposted := Shares(ms[0]), if ms[0] == first then second else first;
      && first.user in PostAll(b, ms).users
      && PostAll(b, ms).users[first.user].balance == b.users[first.user].balance.Minus(charged)
      && after == Shift(keys, earlier.Plus(later).Minus(charged).Plus(GivenFor(unposted)))
      && (GivenFor(unposted) == ZERO <==> unposted.actual == unposted.recorded)
  {
    var posted, unposted := ms[0], if ms[0] == first then second else first;
    FirstDeliveryCharges(b, first, second, ms);
    PostedBalance(b, posted);
    CacheAfterBoth(keys, first, second, policy, earlier, later);
    Kept(unposted);
  }

  /** A task settled at its whole hold and refunded as well: in the cache it costs nothing, in the database its
      hold if the settlement is delivered first, and else nothing. */
  lemma SettledAndRefundedCosts(keys: Keys, b: Books, settled: Message, refunded: Message, policy: Policy,
                                earlier: Pools, later: Pools, ms: seq<Message>)
    requires keys.Complete() && SameHold(settled, refunded)
    requires settled.actual == settled.recorded && refunded.actual == 0 < refunded.recorded
    requires settled.user in b.users && !Billed(b.billingLogs, settled.id)
    requires Only(ms, settled, refunded)
    ensures TwiceSettled(keys, settled, refunded, policy, earlier.Minus(settled.hold), later)
         == Shift(keys, earlier.Plus(later))
    ensures settled.user in PostAll(b, ms).users
    ensures PostAll(b, ms).users[settled.user].balance
         == b.users[settled.user].balance.Minus(if ms[0] == settled then settled.hold else ZERO)
  {
    SecondFinalisationGivesAway(keys, b, settled, refunded, policy, earlier, later, [refunded]);
    SecondFinalisationGivesAway(keys, b, settled, refunded, policy, earlier, later, ms);
    SplitAll(settled.actual, settled.hold);
    Kept(settled);
    Kept(refunded);
    NothingCharged(refunded.hold, earlier.Plus(later));
  }

  lemma NothingCharged(hold: Pools, moved: Pools)
    ensures Split(0, hold) == ZERO && moved.Minus(ZERO).Plus(ZERO) == moved
  {
  }
}
