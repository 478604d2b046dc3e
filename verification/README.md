# Helium account reports: economic effects and reward earnings

This project is a Dafny model of the two pieces of domain logic in the Helium
accounting reports:

1. **The economic-effect resolver** (`report/src/accounting.rs`). Given a
   ledger transaction and the account being reported on, it computes a
   `Difference`: an optional counterparty, a signed HNT delta, a DC delta and
   a fee. Real logic exists only for `PaymentV1`, `PaymentV2`, `RewardsV1` and
   `TokenBurnV1`. The other 23 variants get the null effect. A transaction is
   then projected into an 8-cell ledger row: label, time, height, hash,
   counterparty, HNT, DC and fee.
2. **The reward-earnings report** (`report/track_earnings/main.rs`). For every
   tracked account it walks the rewards fetched for the report window. Each
   reward is weighted by the account's integer ownership percentage and valued
   at the oracle price of its block. The report has three tables: one per
   account, a details table and a summary table. It also keeps per-account and
   grand totals.

Modules, one per file:

- `Wrappers`: `Option` and `Result`.
- `Sums`: the reference sums `Sum` (integers) and `SumR` (exact decimals). It
  also holds `Accumulate`, the running-total loop the source writes, and
  lemmas for concatenation and permutation.
- `Ledger`: addresses as raw bytes, bones and their HNT value, and the
  27-variant transaction type.
- `Table`: typed report cells and rows.
- `Accounting` and `AccountingProperties`: the resolver, the row projection
  and its inverse `ParseRow`, and the conservation and order-independence
  lemmas.
- `Earnings` and `EarningsProperties`: the earnings fold and its lemmas.

Numbers are modelled as follows. HNT amounts are integer bones, and the HNT
decimal is `bones / 10^8`. Decimal arithmetic is exact `real` arithmetic. Two
prices are parameters:

- The oracle price used by a token burn is a function from height to an
  optional price. A missing price is the `OraclePriceUnavailable` failure. In
  the source this is an `unwrap` that aborts the run.
- The price used by the earnings report is a total function from height to
  price. The source retries the lookup until it succeeds, so a finished run
  has a price for every block.

The fetched reward lists are inputs as well.

Behaviours of the code worth noting:

- `PaymentV1` and `TokenBurnV1` have no "neither party" case: every account
  that is not the payer is treated as the receiver and gets `+amount`.
  `PaymentV1`'s counterparty is always the payee, even for the payee itself.
- For a token burn, every non-payer is credited `+amount` HNT. Only the payee
  also receives the DC, and only the payee's row consults the oracle.
- The ownership percentage is `(ownership * 100) as i64`. This truncates
  toward zero, so 0.4567 becomes 45.
- The summary table has no header row. It holds one line per account and a
  trailing grand-total line.
- The accounts come from a hash map, so the order in which they are visited is
  unspecified. The model takes them in any order. Across accounts it claims
  only order-independent facts, such as the grand totals.

## Model

| member | source | states |
|---|---|---|
| Accounting.PaymentV1Difference | report/src/accounting.rs:18-50 | The counterparty is always the payee. The payer gets −amount and any other account gets +amount. DC is 0 and the fee is the transaction fee. |
| Accounting.SumOfDebits | report/src/accounting.rs:72-75 | Subtracting each leg from a running total that starts at 0 gives minus the total paid. |
| Accounting.PaymentV2Difference | report/src/accounting.rs:54-99 | For the payer: −(sum of all legs), and the counterparty is the sole payee when there is exactly one leg, else "many_payees". For anyone else: the sum of the legs naming that account, with the payer as counterparty. DC is 0 and the fee is the transaction fee. |
| Accounting.RewardsV1Difference | report/src/accounting.rs:103-122 | The result is the sum of all reward lines, with counterparty "Rewards" and zero DC and fee, whoever the queried account is. |
| Accounting.TokenBurnV1Difference | report/src/accounting.rs:126-162 | Payer: −amount with the payee as counterparty. Anyone else: +amount with the payer as counterparty. DC is amount × price at the height exactly when the account is the payee, and 0 otherwise. Resolution fails exactly when the account is the payee and no price exists at that height. |
| Accounting.GetDifference | report/src/accounting.rs:18-271 | Each variant's effect follows its own rule. `PaymentV1`: −amount for the payer, +amount for anyone else, payee as counterparty. `PaymentV2`: −(total paid) for the payer, else the legs naming the account. `RewardsV1`: the sum of the reward lines, from "Rewards". `TokenBurnV1`: HNT by the payer test, DC at the oracle price for the payee only. Every `dummy_difference!` variant yields no counterparty and zero HNT, DC and fee, and the counterparty is absent exactly for those. Only a token burn paid to the queried account can fail. |
| Accounting.Label | report/src/accounting.rs:338-364 | No contract of its own: each variant's label is its name. That the labels tell the variants apart is stated by `AccountingProperties.LabelNamesVariant`. |
| Accounting.CounterpartyCell | report/src/accounting.rs:316-321 | The cell is "NA" exactly when there is no counterparty, and it reads back to the counterparty it was written from. |
| Accounting.ToRow | report/src/accounting.rs:188-336 | The row has exactly 8 cells and reads back as label, time, height, hash, counterparty, HNT, DC and fee of the resolved effect. The reading accepts only whole bones, so the HNT cell is fixed exactly. The oracle is asked at the transaction's height. The row fails exactly when the effect fails. The abort on an out-of-range block time is not modelled (see "Left out"). |
| Ledger.HntValue | report/src/accounting.rs:147 | The HNT decimal of an amount times 10^8 gives back the bones, and it is non-negative for non-negative amounts. |
| Sums.Accumulate | report/src/accounting.rs:110-114 | A running total started at `acc` ends at `acc` plus the sum of the terms. |
| AccountingProperties.PaymentV1ZeroSum | report/src/accounting.rs:32-49 | Between a distinct payer and payee, the two HNT deltas cancel, and both name the payee as counterparty. |
| AccountingProperties.ParseRowFixesHnt | report/src/accounting.rs:329 | A row that reads back has as its HNT cell exactly the HNT decimal of the bones it reads back as. |
| AccountingProperties.GetDifferenceZeroSum | report/src/accounting.rs:18-162 | Through the dispatcher, a `PaymentV1` or `TokenBurnV1` between distinct parties leaves the payer's and the payee's HNT deltas summing to 0, whenever the payee's side resolves. |
| AccountingProperties.ReceivedAbsent | report/src/accounting.rs:86-91 | An account named by no leg receives 0. |
| AccountingProperties.ReceivedConcat | report/src/accounting.rs:87-91 | Receipts accumulate over the leg list: concatenating legs adds the amounts received. |
| AccountingProperties.ReceivedRepeated | report/src/accounting.rs:87-91 | A payee named by two legs receives both amounts. |
| AccountingProperties.PaymentV2ZeroSum | report/src/accounting.rs:72-91 | When the payer is not a payee, the payer's delta plus the deltas of each distinct payee is 0. |
| AccountingProperties.PaymentV2OrderIndependent | report/src/accounting.rs:63-98 | Reordering the legs of a payment leaves every account's effect unchanged. |
| AccountingProperties.RewardsV1Independent | report/src/accounting.rs:110-121 | The rewards effect is the same for every queried account and every order of the reward lines. |
| AccountingProperties.TokenBurnV1ZeroSum | report/src/accounting.rs:128-152 | Between a distinct payer and payee, when a price exists: both resolve, the HNT deltas cancel, the payer's DC is 0 and the payee's DC is amount × price. |
| AccountingProperties.LabelNamesVariant | report/src/accounting.rs:338-364 | Two transactions get the same row label exactly when they are the same variant. |
| Earnings.OwnershipPercent | report/track_earnings/main.rs:119 | The percentage is `ownership × 100` truncated toward zero and saturated to 64 bits: from `I64Max` upward it is `I64Max`, and from `I64Min` downward it is `I64Min`. An ownership in [0, 1] gives a percentage in [0, 100]. |
| Earnings.TallyRewards | report/track_earnings/main.rs:110-140 | The loop produces one entry per reward, in fetch order, each weighted by the same percentage and valued at its block's price. The per-account totals equal the sums of the entries' amounts and USD values, starting from 0. |
| Earnings.MakeEntry | report/track_earnings/main.rs:119-136 | The entry keeps the account's pubkey, the reward's timestamp, hash and block, the block's price and the percentage p. Its amount is reward × p / 100 and its USD value is that amount times the price. |
| Earnings.EntryRow | report/track_earnings/main.rs:34-47 | An entry row has one cell per column and reads back to the entry it was written from. |
| Earnings.AccountTable | report/track_earnings/main.rs:84-143 | Entry i is reward i, valued at its block's price and weighted by the account's ownership percentage. The totals are the sums of the entries' amounts and USD values. The table is the header, then one row per entry in fetch order, then a totals row holding those totals. |
| Earnings.ReportAccount | report/track_earnings/main.rs:84-144 | No contract of its own: the shape of an account's report is stated by `Earnings.AccountTable`, and its totals by `Earnings.TallyRewards`. |
| Earnings.RunAccounts | report/track_earnings/main.rs:78-148 | No contract of its own: the account loop is characterised by `Earnings.RunReports`, `Earnings.RunDetails`, `Earnings.RunSummary` and `Earnings.RunGrandTotals`. |
| Earnings.RunReports | report/track_earnings/main.rs:81-148 | The account loop produces one report per account, in the order visited. |
| Earnings.RunDetails | report/track_earnings/main.rs:112-139 | The details table is the header followed by the per-account reward rows, concatenated account after account. |
| Earnings.RunSummary | report/track_earnings/main.rs:141-144 | The summary holds one line per account (label, pubkey, totals), in the order visited. |
| Earnings.RunGrandTotals | report/track_earnings/main.rs:78-142 | The grand totals equal the sums of the per-account totals, starting from 0. |
| Earnings.TrackEarnings | report/track_earnings/main.rs:62-153 | The whole run: one report per account, the details table, and a summary of one line per account plus a trailing grand-total line. The grand totals are the sums of the per-account totals. |
| EarningsProperties.UsdMonotoneInPrice | report/track_earnings/main.rs:120-122 | A higher price never lowers the USD value. For a positive reward and percentage, it strictly raises it. |
| EarningsProperties.MonotoneInShare | report/track_earnings/main.rs:119-123 | At a non-negative price, a larger percentage never lowers the amount or the USD value. |
| EarningsProperties.ZeroShareEarnsNothing | report/track_earnings/main.rs:119-126 | At 0 percent, every entry's amount and USD value is 0, and so are the account's totals. |
| EarningsProperties.OwnershipTruncates | report/track_earnings/main.rs:119 | 0.4567 is recorded as 45, 0.5 as 50, 1.0 as 100 and −0.4567 as −45. |
| EarningsProperties.GrandTotalsOrderIndependent | report/track_earnings/main.rs:81-142 | Visiting the accounts in any other order gives the same grand totals. |
| EarningsProperties.GrandTotalsSplit | report/track_earnings/main.rs:141-142 | Splitting the accounts into two runs splits the grand totals into the two runs' grand totals. |
| EarningsProperties.HalfShareEntry | report/track_earnings/main.rs:120-123 | At 50 percent, a reward of n HNT yields n/2 HNT worth n/2 × price. |
| EarningsProperties.HalfOwnedExample | report/track_earnings/main.rs:110-142 | A half-owned account with 100 HNT at price 2.0 and 50 HNT at price 3.0 totals 75 HNT and 175 USD, and so do the grand totals. |

## Left out

- Network I/O is not modelled: the retry loops around the rewards fetch and the block-price lookup, and the HTTP client. The fetched reward lists and the prices are inputs. The retries have no bound, so the model describes only runs that end.
- The token-burn oracle `unwrap` is modelled as a `Failure` result. The process abort itself is not modelled.
- The `f64` ownership and the floating-point rounding of `ownership * 100.0` are not modelled: the product is exact. Only the truncating, saturating cast to `i64` is modelled, and NaN is not. The visible effect: in `f64`, `0.29 * 100.0` is 28.999999999999996, so the program records 28 where the model records 29. Likewise 0.57 gives 56 and 0.58 gives 57 in the program. The four values in `EarningsProperties.OwnershipTruncates` give the same result under both.
- The `amount as isize` cast in `PaymentV1` and `TokenBurnV1` is not modelled: amounts are unbounded, so the wrap-around for amounts above 2^63 − 1 is absent.
- The `Hnt`, `Dc` and `Decimal` library types are not modelled: values are exact rationals, without the 28-digit limit of `rust_decimal`. The `10^8` bones-per-HNT scale is the `Hnt` type's convention, and that library is not part of this model.
- Address parsing and display (base58) are not modelled. Addresses are compared as raw bytes, and a counterparty cell keeps the address itself. The model assumes that a displayed address never equals "NA", "many_payees" or "Rewards".
- Accounting.ToRow: never fails because of the block time. The source's `get_common_rows` converts it through `utc_timestamp_from_epoch`, which calls `NaiveDateTime::from_timestamp(time as i64, 0)`. That panics when the time is outside the range of chrono's dates, and the `as i64` cast wraps a time of 2^63 or more. Times are kept as epoch seconds and not converted to dates, so this abort has no counterpart in the model.
- Presentation is not modelled: CSV and prettytable output, file names, console progress lines, RFC 3339 timestamps and the 25-column label padding. Times are epoch seconds and amounts are exact values.
- Transaction fields that the effect never reads are not modelled, and neither are the fields of the 23 null-effect variants.
- The wallet JSON-RPC client, the CSV merge script and the CLI mains are not part of this model. `RewardsV2`, which the CLI mains filter on, is not defined in the accounting file either.
