/**
 * The reward-earnings report: for every tracked account, each reward fetched
 * over the report window becomes one ownership-weighted entry valued at the
 * oracle price of its block; per-account and grand totals accumulate as the
 * entries are produced.
 *
 * The fetched reward lists and the price lookup are inputs: the retry loops
 * around them only repeat a request until it succeeds, so a run that ends
 * sees one reward list per account and one price per block.
 */
module Earnings {
  import opened Wrappers
  import opened Sums
  import opened Ledger
  import opened Table

  /** A tracked account: its label, its address as written in the configuration, and the fraction of its rewards owned. */
  datatype AccountConfig = AccountConfig(name: string, pubkey: string, ownership: real)

  /** A reward as the rewards listing returns it; `amount` is in bones. */
  datatype FetchedReward = FetchedReward(timestamp: nat, hash: string, block: nat, amount: nat)

  /** A tracked account together with the rewards fetched for it, in fetch order. */
  datatype AccountRewards = AccountRewards(config: AccountConfig, rewards: seq<FetchedReward>)

  /** The USD price of HNT at a block height. */
  type PriceAt = nat -> real

  const I64Min: int := -0x8000_0000_0000_0000
  const I64Max: int := 0x7FFF_FFFF_FFFF_FFFF

  /**
   * The integer ownership percentage `(ownership * 100) as i64`: truncated
   * toward zero and saturated at the bounds of a 64-bit integer.
   */
  function OwnershipPercent(ownership: real): (p: int)
    ensures I64Min <= p <= I64Max
    ensures 0.0 <= ownership * 100.0 < I64Max as real ==> p as real <= ownership * 100.0 < p as real + 1.0
    ensures I64Min as real < ownership * 100.0 <= 0.0 ==> p as real - 1.0 < ownership * 100.0 <= p as real
    ensures ownership * 100.0 >= I64Max as real ==> p == I64Max
    ensures ownership * 100.0 <= I64Min as real ==> p == I64Min
    ensures 0.0 <= ownership <= 1.0 ==> 0 <= p <= 100
  {
    var scaled := ownership * 100.0;
    var truncated := if scaled >= 0.0 then scaled.Floor else -((-scaled).Floor);
    if truncated > I64Max then I64Max
    else if truncated < I64Min then I64Min
    else truncated
  }

  /** The exact decimal `p / 100`, as the two-decimal-place `Decimal` built from `p`. */
  function Share(p: int): real
  {
    p as real / 100.0
  }

  /** One line of the earnings report. */
  datatype Entry = Entry(pubkey: string, timestamp: nat, hash: string, block: nat,
                         amount: real, oraclePrice: real, ownership: int, usdValue: real)

  /** The entry a reward produces for an owner of `p` percent at oracle price `price`. */
  function MakeEntry(pubkey: string, reward: FetchedReward, price: real, p: int): (e: Entry)
    ensures e.pubkey == pubkey && e.timestamp == reward.timestamp && e.hash == reward.hash
    ensures e.block == reward.block && e.oraclePrice == price && e.ownership == p
    ensures e.amount * 100.0 == HntValue(reward.amount) * p as real
    ensures e.usdValue == e.amount * price
  {
    var usdValue := HntValue(reward.amount) * price * Share(p);
    var amount := HntValue(reward.amount) * Share(p);
    Entry(pubkey, reward.timestamp, reward.hash, reward.block, amount, price, p, usdValue)
  }

  /** The header of the per-account and details tables. */
  const Columns: Row := [Text("pubkey"), Text("timestamp"), Text("hash"), Text("block"),
                         Text("amount"), Text("oracle_price"), Text("ownership"), Text("usd_value")]

  /** Reads an entry row back; None when the row is not 8 cells of the expected kinds. */
  function ParseEntryRow(row: Row): Option<Entry>
  {
    if |row| != 8 then None
    else
      match (row[0], row[1], row[2], row[3], row[4], row[5], row[6], row[7])
      case (Text(pubkey), Time(timestamp), Text(hash), Int(block), Dec(amount), Dec(price), Int(p), Dec(usd)) =>
        if block < 0 then None else Some(Entry(pubkey, timestamp, hash, block, amount, price, p, usd))
      case _ => None
  }

  /** An entry as a table row, in the order of `Columns`: one cell per column, reading back to the entry. */
  function EntryRow(e: Entry): (row: Row)
    ensures |row| == |Columns|
    ensures ParseEntryRow(row) == Some(e)
  {
    [Text(e.pubkey), Time(e.timestamp), Text(e.hash), Int(e.block),
     Dec(e.amount), Dec(e.oraclePrice), Int(e.ownership), Dec(e.usdValue)]
  }

  function EntryRows(entries: seq<Entry>): seq<Row>
  {
    seq(|entries|, i requires 0 <= i < |entries| => EntryRow(entries[i]))
  }

  function EntryAmount(e: Entry): real { e.amount }

  function EntryUsd(e: Entry): real { e.usdValue }

  /** The entries of one account so far and their running totals. */
  datatype Tally = Tally(entries: seq<Entry>, totalHnt: real, totalUsd: real)

  /**
   * The reward loop of one account: one entry per reward in fetch order, each
   * added to the running totals, which start from zero.
   */
  function TallyRewards(pubkey: string, p: int, rewards: seq<FetchedReward>, prices: PriceAt): (t: Tally)
    ensures |t.entries| == |rewards|
    ensures forall i :: 0 <= i < |rewards| ==>
      t.entries[i] == MakeEntry(pubkey, rewards[i], prices(rewards[i].block), p)
    ensures t.totalHnt == SumR(t.entries, EntryAmount)
    ensures t.totalUsd == SumR(t.entries, EntryUsd)
    decreases |rewards|
  {
    if |rewards| == 0 then Tally([], 0.0, 0.0)
    else
      var t := TallyRewards(pubkey, p, rewards[..|rewards| - 1], prices);
      var reward := rewards[|rewards| - 1];
      var e := MakeEntry(pubkey, reward, prices(reward.block), p);
      assert (t.entries + [e])[..|t.entries|] == t.entries;
      Tally(t.entries + [e], t.totalHnt + e.amount, t.totalUsd + e.usdValue)
  }

  /** The trailing row of a per-account table. */
  function TotalsRow(totalHnt: real, totalUsd: real): Row
  {
    [Text(""), Text(""), Text(""), Text(""), Dec(totalHnt), Text(""), Text(""), Dec(totalUsd)]
  }

  /** An account's processed rewards and the table written for it. */
  datatype AccountReport = AccountReport(name: string, pubkey: string, tally: Tally, table: seq<Row>)

  /** The rows of a per-account table between its header and its totals row. */
  function RewardRows(report: AccountReport): seq<Row>
  {
    if |report.table| < 2 then [] else report.table[1..|report.table| - 1]
  }

  /** One account's pass: its rewards tallied at its ownership percentage, and the table written for it. */
  function ReportAccount(account: AccountRewards, prices: PriceAt): AccountReport
  {
    var p := OwnershipPercent(account.config.ownership);
    var t := TallyRewards(account.config.pubkey, p, account.rewards, prices);
    AccountReport(account.config.name, account.config.pubkey, t,
                  [Columns] + EntryRows(t.entries) + [TotalsRow(t.totalHnt, t.totalUsd)])
  }

  /**
   * The shape of an account's report: entry i is reward i weighted by the
   * account's ownership percentage and valued at its block's price, the totals
   * are the sums of the entries, and the table is the header, one row per
   * reward in fetch order, and the totals row.
   */
  lemma AccountTable(account: AccountRewards, prices: PriceAt)
    ensures var r := ReportAccount(account, prices);
      && r.name == account.config.name && r.pubkey == account.config.pubkey
      && |r.tally.entries| == |account.rewards|
      && (forall i :: 0 <= i < |account.rewards| ==>
            r.tally.entries[i] == MakeEntry(account.config.pubkey, account.rewards[i],
                                            prices(account.rewards[i].block),
                                            OwnershipPercent(account.config.ownership)))
      && r.tally.totalHnt == SumR(r.tally.entries, EntryAmount)
      && r.tally.totalUsd == SumR(r.tally.entries, EntryUsd)
      && |r.table| == |account.rewards| + 2
      && r.table[0] == Columns
      && RewardRows(r) == EntryRows(r.tally.entries)
      && r.table[|r.table| - 1] == TotalsRow(r.tally.totalHnt, r.tally.totalUsd)
  {
    var r := ReportAccount(account, prices);
    assert r.table[1..|r.table| - 1] == EntryRows(r.tally.entries);
  }

  /** An account's line in the summary table. */
  function SummaryRow(r: AccountReport): Row
  {
    [Text(r.name), Text(r.pubkey), Dec(r.tally.totalHnt), Dec(r.tally.totalUsd)]
  }

  /** The trailing line of the summary table. */
  function GrandRow(grandHnt: real, grandUsd: real): Row
  {
    [Text(""), Text(""), Dec(grandHnt), Dec(grandUsd)]
  }

  /** The per-account HNT total an account earns under `prices`. */
  function EarnedHnt(prices: PriceAt): AccountRewards -> real
  {
    a => ReportAccount(a, prices).tally.totalHnt
  }

  /** The per-account USD total an account earns under `prices`. */
  function EarnedUsd(prices: PriceAt): AccountRewards -> real
  {
    a => ReportAccount(a, prices).tally.totalUsd
  }

  /** The reward rows of several accounts, one account after the other. */
  function ConcatRewardRows(reports: seq<AccountReport>): seq<Row>
  {
    if |reports| == 0 then []
    else ConcatRewardRows(reports[..|reports| - 1]) + RewardRows(reports[|reports| - 1])
  }

  /** Every account's report, in the order the accounts are visited. */
  function ReportAll(accounts: seq<AccountRewards>, prices: PriceAt): (reports: seq<AccountReport>)
    ensures |reports| == |accounts|
    ensures forall i :: 0 <= i < |accounts| ==> reports[i] == ReportAccount(accounts[i], prices)
    decreases |accounts|
  {
    if |accounts| == 0 then []
    else
      var init := ReportAll(accounts[..|accounts| - 1], prices);
      var r := ReportAccount(accounts[|accounts| - 1], prices);
      assert forall i :: 0 <= i < |init| ==> (init + [r])[i] == init[i];
      init + [r]
  }

  /** The summary lines of the given reports, one per account. */
  function SummaryRows(reports: seq<AccountReport>): (rows: seq<Row>)
    ensures |rows| == |reports|
    ensures forall i :: 0 <= i < |reports| ==> rows[i] == SummaryRow(reports[i])
    decreases |reports|
  {
    if |reports| == 0 then []
    else SummaryRows(reports[..|reports| - 1]) + [SummaryRow(reports[|reports| - 1])]
  }

  /** The state of a report run: per-account reports, the details and summary tables, and the grand totals. */
  datatype Run = Run(accounts: seq<AccountReport>, details: seq<Row>, summary: seq<Row>,
                     grandHnt: real, grandUsd: real)

  /**
   * The account loop, in the order the accounts are visited: every reward row
   * also goes to the details table, and every account adds its totals to the
   * grand totals and its line to the summary.
   */
  function RunAccounts(accounts: seq<AccountRewards>, prices: PriceAt): Run
    decreases |accounts|
  {
    if |accounts| == 0 then Run([], [Columns], [], 0.0, 0.0)
    else
      var s := RunAccounts(accounts[..|accounts| - 1], prices);
      var r := ReportAccount(accounts[|accounts| - 1], prices);
      Run(s.accounts + [r],
          s.details + EntryRows(r.tally.entries),
          s.summary + [SummaryRow(r)],
          s.grandHnt + r.tally.totalHnt,
          s.grandUsd + r.tally.totalUsd)
  }

  /** What appending one account's report adds to the concatenated reward rows. */
  lemma ConcatStep(reports: seq<AccountReport>, a: AccountRewards, prices: PriceAt)
    ensures ConcatRewardRows(reports + [ReportAccount(a, prices)])
         == ConcatRewardRows(reports) + EntryRows(ReportAccount(a, prices).tally.entries)
  {
    var r := ReportAccount(a, prices);
    assert (reports + [r])[..|reports|] == reports;
    assert r.table[1..|r.table| - 1] == EntryRows(r.tally.entries);
  }

  /** What appending one account's report adds to the summary lines. */
  lemma SummaryStep(reports: seq<AccountReport>, r: AccountReport)
    ensures SummaryRows(reports + [r]) == SummaryRows(reports) + [SummaryRow(r)]
  {
    assert (reports + [r])[..|reports|] == reports;
  }

  /** The loop produces one report per account, in the order visited. */
  lemma {:induction false} RunReports(accounts: seq<AccountRewards>, prices: PriceAt)
    ensures RunAccounts(accounts, prices).accounts == ReportAll(accounts, prices)
    decreases |accounts|
  {
    if |accounts| > 0 {
      RunReports(accounts[..|accounts| - 1], prices);
    }
  }

  /** The details table is the header followed by every account's reward rows, account after account. */
  lemma {:induction false} RunDetails(accounts: seq<AccountRewards>, prices: PriceAt)
    ensures RunAccounts(accounts, prices).details == [Columns] + ConcatRewardRows(RunAccounts(accounts, prices).accounts)
    decreases |accounts|
  {
    if |accounts| > 0 {
      var init := accounts[..|accounts| - 1];
      var a := accounts[|accounts| - 1];
      var s := RunAccounts(init, prices);
      var r := ReportAccount(a, prices);
      var rows := EntryRows(r.tally.entries);
      var full := RunAccounts(accounts, prices);
      assert full.accounts == s.accounts + [r] && full.details == s.details + rows;
      RunDetails(init, prices);
      ConcatStep(s.accounts, a, prices);
      var before := ConcatRewardRows(s.accounts);
      assert s.details + rows == [Columns] + (before + rows);
    }
  }

  /** The summary has one line per account, in the order visited. */
  lemma {:induction false} RunSummary(accounts: seq<AccountRewards>, prices: PriceAt)
    ensures RunAccounts(accounts, prices).summary == SummaryRows(RunAccounts(accounts, prices).accounts)
    decreases |accounts|
  {
    if |accounts| > 0 {
      var init := accounts[..|accounts| - 1];
      RunSummary(init, prices);
      SummaryStep(RunAccounts(init, prices).accounts, ReportAccount(accounts[|accounts| - 1], prices));
    }
  }

  /** The grand totals are the sums of the per-account totals. */
  lemma {:induction false} RunGrandTotals(accounts: seq<AccountRewards>, prices: PriceAt)
    ensures RunAccounts(accounts, prices).grandHnt == SumR(accounts, EarnedHnt(prices))
    ensures RunAccounts(accounts, prices).grandUsd == SumR(accounts, EarnedUsd(prices))
    decreases |accounts|
  {
    if |accounts| > 0 {
      var a := accounts[|accounts| - 1];
      RunGrandTotals(accounts[..|accounts| - 1], prices);
      assert EarnedHnt(prices)(a) == ReportAccount(a, prices).tally.totalHnt;
      assert EarnedUsd(prices)(a) == ReportAccount(a, prices).tally.totalUsd;
    }
  }

  /**
   * The whole report: the account loop followed by the grand-total line of
   * the summary.
   */
  function TrackEarnings(accounts: seq<AccountRewards>, prices: PriceAt): (s: Run)
    ensures |s.accounts| == |accounts|
    ensures forall i :: 0 <= i < |accounts| ==> s.accounts[i] == ReportAccount(accounts[i], prices)
    ensures s.details == [Columns] + ConcatRewardRows(s.accounts)
    ensures |s.summary| == |accounts| + 1
    ensures forall i :: 0 <= i < |accounts| ==> s.summary[i] == SummaryRow(s.accounts[i])
    ensures s.summary[|accounts|] == GrandRow(s.grandHnt, s.grandUsd)
    ensures s.grandHnt == SumR(accounts, EarnedHnt(prices))
    ensures s.grandUsd == SumR(accounts, EarnedUsd(prices))
  {
    RunReports(accounts, prices);
    RunDetails(accounts, prices);
    RunSummary(accounts, prices);
    RunGrandTotals(accounts, prices);
    var s := RunAccounts(accounts, prices);
    s.(summary := s.summary + [GrandRow(s.grandHnt, s.grandUsd)])
  }
}
