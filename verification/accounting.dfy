/**
 * The per-transaction economic effect on one queried account, and the
 * projection of a transaction into an 8-cell ledger row.
 *
 * Each variant's effect is a pure function of the transaction, the queried
 * account and, for token burns only, the oracle price at the block height.
 */
module Accounting {
  import opened Wrappers
  import opened Sums
  import opened Ledger
  import opened Table

  /** Who is on the other side of a transaction, as the counterparty cell names it. */
  datatype Counterparty =
    | Peer(address: Address)
    | ManyPayees      // printed "many_payees"
    | RewardsSource   // printed "Rewards"

  /**
   * The effect of a transaction on an account: the counterparty (if any), the
   * signed HNT delta in bones, the DC delta and the transaction fee.
   */
  datatype Difference = Difference(counterparty: Option<Counterparty>, hnt: int, dc: real, fee: nat)

  /** The effect of every variant that does not move tokens. */
  const NoEffect: Difference := Difference(None, 0, 0.0, 0)

  /** The HNT price oracle: the USD price at a block height, or None when the lookup fails. */
  type Oracle = nat -> Option<real>

  /** The lookup failure that makes a token burn's resolution abort. */
  datatype Failure = OraclePriceUnavailable(height: nat)

  function PaymentAmount(p: Payment): int { p.amount }

  /** The term one payment leg subtracts from its payer's running total. */
  function Debit(p: Payment): int { -(p.amount as int) }

  /** The term one payment leg adds to `account`'s running total. */
  function PaidTo(account: Address): Payment -> int
  {
    (p: Payment) => if p.payee == account then p.amount as int else 0
  }

  function RewardAmount(r: Reward): int { r.amount }

  /** Everything a multi-recipient payment pays out. */
  function TotalPaid(payments: seq<Payment>): int
  {
    Sum(payments, PaymentAmount)
  }

  /** What `account` receives from a multi-recipient payment: every leg naming it, repeats included. */
  function Received(payments: seq<Payment>, account: Address): int
  {
    Sum(payments, PaidTo(account))
  }

  lemma {:induction false} SumOfDebits(payments: seq<Payment>)
    ensures Sum(payments, Debit) == -TotalPaid(payments)
    decreases |payments|
  {
    if |payments| > 0 {
      SumOfDebits(payments[..|payments| - 1]);
    }
  }

  /** A single-payee payment: the payer loses the amount, anyone else gains it. */
  function PaymentV1Difference(payer: Address, payee: Address, amount: nat, fee: nat, account: Address): (d: Difference)
    ensures d.counterparty == Some(Peer(payee))
    ensures account == payer ==> d.hnt == -(amount as int)
    ensures account != payer ==> d.hnt == amount
    ensures d.dc == 0.0 && d.fee == fee
  {
    var counterparty := Some(Peer(payee));
    if account == payer then Difference(counterparty, -(amount as int), 0.0, fee)
    else Difference(counterparty, amount, 0.0, fee)
  }

  /**
   * A multi-recipient payment. The payer's total is accumulated leg by leg
   * from zero, as is a payee's; both are stated against the reference sums.
   */
  function PaymentV2Difference(payer: Address, payments: seq<Payment>, fee: nat, account: Address): (d: Difference)
    ensures account == payer ==> d.hnt == -TotalPaid(payments)
    ensures account == payer && |payments| == 1 ==> d.counterparty == Some(Peer(payments[0].payee))
    ensures account == payer && |payments| != 1 ==> d.counterparty == Some(ManyPayees)
    ensures account != payer ==> d.hnt == Received(payments, account) && d.counterparty == Some(Peer(payer))
    ensures d.dc == 0.0 && d.fee == fee
  {
    if account == payer then
      var counterparty := Some(if |payments| == 1 then Peer(payments[0].payee) else ManyPayees);
      SumOfDebits(payments);
      Difference(counterparty, Accumulate(payments, Debit, 0), 0.0, fee)
    else
      Difference(Some(Peer(payer)), Accumulate(payments, PaidTo(account), 0), 0.0, fee)
  }

  /** A rewards transaction credits the sum of all its reward lines, whoever asks. */
  function RewardsV1Difference(rewards: seq<Reward>, account: Address): (d: Difference)
    ensures d == Difference(Some(RewardsSource), Sum(rewards, RewardAmount), 0.0, 0)
  {
    Difference(Some(RewardsSource), Accumulate(rewards, RewardAmount, 0), 0.0, 0)
  }

  /**
   * A token burn. The HNT side treats every non-payer as receiving the
   * amount; the DC side is decided separately by whether the account is the
   * payee, and only then is the oracle consulted.
   */
  function TokenBurnV1Difference(payer: Address, payee: Address, amount: nat, fee: nat,
                                 account: Address, oracle: Oracle, height: nat): (r: Result<Difference, Failure>)
    ensures r.Failure? <==> account == payee && oracle(height).None?
    ensures r.Failure? ==> r.error == OraclePriceUnavailable(height)
    ensures r.Success? ==> r.value.fee == fee
    ensures r.Success? && account == payer ==> r.value.hnt == -(amount as int) && r.value.counterparty == Some(Peer(payee))
    ensures r.Success? && account != payer ==> r.value.hnt == amount && r.value.counterparty == Some(Peer(payer))
    ensures r.Success? && account == payee ==> r.value.dc == HntValue(amount) * oracle(height).value
    ensures r.Success? && account != payee ==> r.value.dc == 0.0
  {
    var hnt: int := if account == payer then -(amount as int) else amount;
    var counterparty := Some(Peer(if account == payer then payee else payer));
    if account == payee then
      match oracle(height)
      case None => Failure(OraclePriceUnavailable(height))
      case Some(price) => Success(Difference(counterparty, hnt, HntValue(amount) * price, fee))
    else
      Success(Difference(counterparty, hnt, 0.0, fee))
  }

  /** The 23 variants whose effect is the null effect. */
  predicate NullPolicy(data: Data)
  {
    match data
    case AddGatewayV1 | AssertLocationV1 | CoinbaseV1 | CreateHtlcV1 | GenGatewayV1
       | ConsensusGroupV1 | OuiV1 | PocReceiptsV1 | PocRequestV1 | RedeemHtlcV1
       | SecurityCoinbaseV1 | RoutingV1 | SecurityExchangeV1 | VarsV1 | DcCoinbaseV1
       | TokenBurnExchangeRateV1 | StateChannelOpenV1 | UpdateGatewayOuiV1
       | StateChannelCloseV1 | PriceOracleV1 | GenPriceOracleV1 | BundleV1
       | TransferHotspotV1 => true
    case _ => false
  }

  /**
   * The effect of a transaction of any variant on `account`, the oracle being
   * asked at `height`. Only a token burn paid to `account` can fail.
   */
  function GetDifference(data: Data, account: Address, oracle: Oracle, height: nat): (r: Result<Difference, Failure>)
    ensures r.Failure? <==> data.TokenBurnV1? && data.payee == account && oracle(height).None?
    ensures NullPolicy(data) ==> r == Success(NoEffect)
    ensures r.Success? ==> (r.value.counterparty.None? <==> NullPolicy(data))
    ensures data.PaymentV1? ==>
      && r.Success? && r.value.counterparty == Some(Peer(data.payee))
      && r.value.hnt == (if account == data.payer then -(data.amount as int) else data.amount)
      && r.value.dc == 0.0 && r.value.fee == data.fee
    ensures data.PaymentV2? ==>
      && r.Success? && r.value.dc == 0.0 && r.value.fee == data.fee
      && r.value.hnt == (if account == data.payer then -TotalPaid(data.payments) else Received(data.payments, account))
      && r.value.counterparty == Some(if account != data.payer then Peer(data.payer)
                                      else if |data.payments| == 1 then Peer(data.payments[0].payee)
                                      else ManyPayees)
    ensures data.RewardsV1? ==>
      r == Success(Difference(Some(RewardsSource), Sum(data.rewards, RewardAmount), 0.0, 0))
    ensures data.TokenBurnV1? && r.Success? ==>
      && r.value.fee == data.fee
      && r.value.hnt == (if account == data.payer then -(data.amount as int) else data.amount)
      && r.value.counterparty == Some(Peer(if account == data.payer then data.payee else data.payer))
      && r.value.dc == (if account == data.payee then HntValue(data.amount) * oracle(height).value else 0.0)
  {
    match data
    case PaymentV1(payer, payee, amount, fee) => Success(PaymentV1Difference(payer, payee, amount, fee, account))
    case PaymentV2(payer, payments, fee) => Success(PaymentV2Difference(payer, payments, fee, account))
    case RewardsV1(rewards) => Success(RewardsV1Difference(rewards, account))
    case TokenBurnV1(payer, payee, amount, fee) => TokenBurnV1Difference(payer, payee, amount, fee, account, oracle, height)
    case AddGatewayV1 | AssertLocationV1 | CoinbaseV1 | CreateHtlcV1 | GenGatewayV1
       | ConsensusGroupV1 | OuiV1 | PocReceiptsV1 | PocRequestV1 | RedeemHtlcV1
       | SecurityCoinbaseV1 | RoutingV1 | SecurityExchangeV1 | VarsV1 | DcCoinbaseV1
       | TokenBurnExchangeRateV1 | StateChannelOpenV1 | UpdateGatewayOuiV1
       | StateChannelCloseV1 | PriceOracleV1 | GenPriceOracleV1 | BundleV1
       | TransferHotspotV1 => Success(NoEffect)
  }

  /** The variant's name, the first cell of its row. */
  function Label(data: Data): string
  {
    match data
    case PaymentV1(_, _, _, _) => "PaymentV1"
    case PaymentV2(_, _, _) => "PaymentV2"
    case RewardsV1(_) => "RewardsV1"
    case TokenBurnV1(_, _, _, _) => "TokenBurnV1"
    case AddGatewayV1 => "AddGatewayV1"
    case AssertLocationV1 => "AssertLocationV1"
    case CoinbaseV1 => "CoinbaseV1"
    case CreateHtlcV1 => "CreateHtlcV1"
    case GenGatewayV1 => "GenGatewayV1"
    case ConsensusGroupV1 => "ConsensusGroupV1"
    case OuiV1 => "OuiV1"
    case PocReceiptsV1 => "PocReceiptsV1"
    case PocRequestV1 => "PocRequestV1"
    case RedeemHtlcV1 => "RedeemHtlcV1"
    case SecurityCoinbaseV1 => "SecurityCoinbaseV1"
    case RoutingV1 => "RoutingV1"
    case SecurityExchangeV1 => "SecurityExchangeV1"
    case VarsV1 => "VarsV1"
    case DcCoinbaseV1 => "DcCoinbaseV1"
    case TokenBurnExchangeRateV1 => "TokenBurnExchangeRateV1"
    case BundleV1 => "BundleV1"
    case StateChannelOpenV1 => "StateChannelOpenV1"
    case UpdateGatewayOuiV1 => "UpdateGatewayOuiV1"
    case StateChannelCloseV1 => "StateChannelCloseV1"
    case PriceOracleV1 => "PriceOracleV1"
    case GenPriceOracleV1 => "GenPriceOracleV1"
    case TransferHotspotV1 => "TransferHotspotV1"
  }

  /** Reads a counterparty cell back; None when the cell is not one `CounterpartyCell` writes. */
  function ParseCounterparty(cell: Cell): Option<Option<Counterparty>>
  {
    match cell
    case Addr(a) => Some(Some(Peer(a)))
    case Text(s) =>
      if s == "NA" then Some(None)
      else if s == "many_payees" then Some(Some(ManyPayees))
      else if s == "Rewards" then Some(Some(RewardsSource))
      else None
    case _ => None
  }

  /** The counterparty cell: the counterparty's name, or "NA" when there is none. */
  function CounterpartyCell(c: Option<Counterparty>): (cell: Cell)
    ensures cell == Text("NA") <==> c.None?
    ensures ParseCounterparty(cell) == Some(c)
  {
    match c
    case None => Text("NA")
    case Some(Peer(a)) => Addr(a)
    case Some(ManyPayees) => Text("many_payees")
    case Some(RewardsSource) => Text("Rewards")
  }

  /** The information a ledger row carries, in column order. */
  datatype RowFields = RowFields(variant: string, time: nat, height: nat, hash: string,
                                 counterparty: Option<Counterparty>, hnt: int, dc: real, fee: nat)

  /** An HNT decimal that is a whole number of bones. */
  predicate IsWholeBones(hnt: real)
  {
    (hnt * BonesPerHnt as real).Floor as real == hnt * BonesPerHnt as real
  }

  /** Reads a ledger row back into its fields; None when the row is not 8 cells of the expected kinds or its HNT cell is not a whole number of bones. */
  function ParseRow(row: Row): Option<RowFields>
  {
    if |row| != 8 then None
    else
      match (row[0], row[1], row[2], row[3], row[5], row[6], row[7])
      case (Text(variant), Time(time), Int(height), Text(hash), Dec(hnt), Dec(dc), Int(fee)) =>
        if height < 0 || fee < 0 || !IsWholeBones(hnt) then None
        else
          (match ParseCounterparty(row[4])
           case Some(c) => Some(RowFields(variant, time, height, hash, c, (hnt * BonesPerHnt as real).Floor, dc, fee))
           case None => None)
      case _ => None
  }

  /**
   * The ledger row of a transaction for `account`: label, time, height, hash,
   * counterparty, HNT, DC and fee. Fails exactly when resolving the effect fails.
   */
  function ToRow(txn: Transaction, account: Address, oracle: Oracle): (r: Result<Row, Failure>)
    ensures r.Failure? <==> txn.data.TokenBurnV1? && txn.data.payee == account && oracle(txn.height).None?
    ensures r.Failure? ==> r.error == OraclePriceUnavailable(txn.height)
    ensures r.Success? ==> |r.value| == 8
    ensures r.Success? ==>
      var d := GetDifference(txn.data, account, oracle, txn.height).value;
      ParseRow(r.value) == Some(RowFields(Label(txn.data), txn.time, txn.height, txn.hash,
                                          d.counterparty, d.hnt, d.dc, d.fee))
    ensures r.Success? ==> (r.value[4] == Text("NA") <==> NullPolicy(txn.data))
  {
    match GetDifference(txn.data, account, oracle, txn.height)
    case Failure(e) => Failure(e)
    case Success(d) =>
      Success([Text(Label(txn.data)), Time(txn.time), Int(txn.height), Text(txn.hash),
               CounterpartyCell(d.counterparty), Dec(HntValue(d.hnt)), Dec(d.dc), Int(d.fee)])
  }
}
