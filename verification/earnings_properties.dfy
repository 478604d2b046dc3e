/**
 * Properties of the earnings report that relate several runs or several
 * entries: how a row's value responds to the price and the ownership share,
 * and why the grand totals do not depend on the order in which the accounts
 * are visited.
 */
module EarningsProperties {
  import opened Sums
  import opened Ledger
  import opened Earnings

  /** A higher price never lowers an entry's USD value, and strictly raises it for a positive reward and share. */
  lemma UsdMonotoneInPrice(pubkey: string, reward: FetchedReward, p: int, low: real, high: real)
    requires p >= 0 && low <= high
    ensures MakeEntry(pubkey, reward, low, p).usdValue <= MakeEntry(pubkey, reward, high, p).usdValue
    ensures reward.amount > 0 && p > 0 && low < high ==>
      MakeEntry(pubkey, reward, low, p).usdValue < MakeEntry(pubkey, reward, high, p).usdValue
  {
    var share := HntValue(reward.amount) * Share(p);
    assert share >= 0.0;
    assert share * low <= share * high;
    if reward.amount > 0 && p > 0 && low < high {
      assert share > 0.0;
      assert share * low < share * high;
    }
  }

  /** At a non-negative price, a larger ownership share never lowers an entry's amount or USD value. */
  lemma MonotoneInShare(pubkey: string, reward: FetchedReward, price: real, p: int, q: int)
    requires price >= 0.0 && p <= q
    ensures MakeEntry(pubkey, reward, price, p).amount <= MakeEntry(pubkey, reward, price, q).amount
    ensures MakeEntry(pubkey, reward, price, p).usdValue <= MakeEntry(pubkey, reward, price, q).usdValue
  {
    var h := HntValue(reward.amount);
    assert h >= 0.0;
    assert h * Share(p) <= h * Share(q);
    assert h * Share(p) * price <= h * Share(q) * price;
  }

  /** An account owned at zero percent earns nothing: every entry and both totals are zero. */
  lemma ZeroShareEarnsNothing(account: AccountRewards, prices: PriceAt)
    requires OwnershipPercent(account.config.ownership) == 0
    ensures var r := ReportAccount(account, prices);
      && (forall i :: 0 <= i < |r.tally.entries| ==> r.tally.entries[i].amount == 0.0 && r.tally.entries[i].usdValue == 0.0)
      && r.tally.totalHnt == 0.0 && r.tally.totalUsd == 0.0
  {
    var r := ReportAccount(account, prices);
    SumRZero(r.tally.entries, EntryAmount);
    SumRZero(r.tally.entries, EntryUsd);
  }

  /** The ownership percentage truncates: 45.67 percent is recorded as 45. */
  lemma OwnershipTruncates()
    ensures OwnershipPercent(0.4567) == 45
    ensures OwnershipPercent(0.5) == 50
    ensures OwnershipPercent(1.0) == 100
    ensures OwnershipPercent(-0.4567) == -45
  {
  }

  /**
   * The report does not depend on the order the accounts are visited in
   * (the configuration is a hash map): any reordering yields the same grand totals.
   */
  lemma GrandTotalsOrderIndependent(a: seq<AccountRewards>, b: seq<AccountRewards>, prices: PriceAt)
    requires multiset(a) == multiset(b)
    ensures TrackEarnings(a, prices).grandHnt == TrackEarnings(b, prices).grandHnt
    ensures TrackEarnings(a, prices).grandUsd == TrackEarnings(b, prices).grandUsd
  {
    SumRPermutation(a, b, EarnedHnt(prices));
    SumRPermutation(a, b, EarnedUsd(prices));
  }

  /** Splitting the accounts into two runs splits the grand totals accordingly. */
  lemma GrandTotalsSplit(a: seq<AccountRewards>, b: seq<AccountRewards>, prices: PriceAt)
    ensures TrackEarnings(a + b, prices).grandHnt == TrackEarnings(a, prices).grandHnt + TrackEarnings(b, prices).grandHnt
    ensures TrackEarnings(a + b, prices).grandUsd == TrackEarnings(a, prices).grandUsd + TrackEarnings(b, prices).grandUsd
  {
    SumRAppend(a, b, EarnedHnt(prices));
    SumRAppend(a, b, EarnedUsd(prices));
  }

  /** The block prices of the worked example: 2.0 at block 1, 3.0 elsewhere. */
  function ExamplePrices(block: nat): real
  {
    if block == 1 then 2.0 else 3.0
  }

  /** At a 50 percent share, a whole-HNT reward yields half of it, valued at the given price. */
  lemma HalfShareEntry(pubkey: string, reward: FetchedReward, hnt: nat, price: real)
    requires reward.amount == hnt * BonesPerHnt
    ensures MakeEntry(pubkey, reward, price, 50).amount == hnt as real / 2.0
    ensures MakeEntry(pubkey, reward, price, 50).usdValue == hnt as real / 2.0 * price
  {
    assert HntValue(reward.amount) == hnt as real;
  }

  /**
   * A half-owned account with rewards of 100 HNT at block 1 and 50 HNT at
   * block 2 earns 50 + 25 = 75 HNT worth 50 * 2.0 + 25 * 3.0 = 175 USD.
   */
  lemma HalfOwnedExample()
    ensures var account := AccountRewards(AccountConfig("pool", "addr", 0.5),
                                          [FetchedReward(0, "h1", 1, 100 * BonesPerHnt),
                                           FetchedReward(0, "h2", 2, 50 * BonesPerHnt)]);
      && ReportAccount(account, ExamplePrices).tally.totalHnt == 75.0
      && ReportAccount(account, ExamplePrices).tally.totalUsd == 175.0
      && TrackEarnings([account], ExamplePrices).grandHnt == 75.0
      && TrackEarnings([account], ExamplePrices).grandUsd == 175.0
  {
    var r1 := FetchedReward(0, "h1", 1, 100 * BonesPerHnt);
    var r2 := FetchedReward(0, "h2", 2, 50 * BonesPerHnt);
    var account := AccountRewards(AccountConfig("pool", "addr", 0.5), [r1, r2]);
    assert OwnershipPercent(0.5) == 50;
    HalfShareEntry("addr", r1, 100, 2.0);
    HalfShareEntry("addr", r2, 50, 3.0);
    var e1 := MakeEntry("addr", r1, 2.0, 50);
    var e2 := MakeEntry("addr", r2, 3.0, 50);
    var t := TallyRewards("addr", 50, [r1, r2], ExamplePrices);
    assert t.entries == [e1, e2];
    assert [e1, e2][..1] == [e1];
    assert [e1][..0] == [];
    assert SumR([e1], EntryAmount) == 50.0 && SumR([e1], EntryUsd) == 100.0;
    assert SumR([e1, e2], EntryAmount) == 75.0;
    assert SumR([e1, e2], EntryUsd) == 175.0;
    assert [account][..0] == [];
    assert EarnedHnt(ExamplePrices)(account) == 75.0;
    assert EarnedUsd(ExamplePrices)(account) == 175.0;
    assert SumR([account], EarnedHnt(ExamplePrices)) == SumR([], EarnedHnt(ExamplePrices)) + EarnedHnt(ExamplePrices)(account);
    assert SumR([account], EarnedUsd(ExamplePrices)) == SumR([], EarnedUsd(ExamplePrices)) + EarnedUsd(ExamplePrices)(account);
  }
}
