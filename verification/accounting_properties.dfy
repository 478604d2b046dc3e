/**
 * Properties of the economic-effect resolver that relate several queries:
 * conservation of HNT between the parties, independence from list order,
 * and how a payee's receipts accumulate.
 */
module AccountingProperties {
  import opened Wrappers
  import opened Sums
  import opened Ledger
  import opened Accounting
  import opened Table

  /** A single-payee payment between two distinct accounts moves HNT without creating any. */
  lemma PaymentV1ZeroSum(payer: Address, payee: Address, amount: nat, fee: nat)
    requires payer != payee
    ensures PaymentV1Difference(payer, payee, amount, fee, payer).hnt
          + PaymentV1Difference(payer, payee, amount, fee, payee).hnt == 0
    ensures PaymentV1Difference(payer, payee, amount, fee, payer).counterparty
         == PaymentV1Difference(payer, payee, amount, fee, payee).counterparty
  {
  }

  /** A token burn between two distinct accounts: the HNT deltas cancel, and only the payee sees DC. */
  lemma TokenBurnV1ZeroSum(payer: Address, payee: Address, amount: nat, fee: nat, oracle: Oracle, height: nat)
    requires payer != payee
    requires oracle(height).Some?
    ensures TokenBurnV1Difference(payer, payee, amount, fee, payer, oracle, height).Success?
    ensures TokenBurnV1Difference(payer, payee, amount, fee, payee, oracle, height).Success?
    ensures TokenBurnV1Difference(payer, payee, amount, fee, payer, oracle, height).value.hnt
          + TokenBurnV1Difference(payer, payee, amount, fee, payee, oracle, height).value.hnt == 0
    ensures TokenBurnV1Difference(payer, payee, amount, fee, payer, oracle, height).value.dc == 0.0
    ensures TokenBurnV1Difference(payer, payee, amount, fee, payee, oracle, height).value.dc
         == HntValue(amount) * oracle(height).value
  {
  }

  /**
   * A row that reads back determines its HNT cell exactly: the cell is the
   * HNT decimal of the bones it reads back as, so the round trip of `ToRow`
   * fixes every cell of the row.
   */
  lemma ParseRowFixesHnt(row: Row)
    requires ParseRow(row).Some?
    ensures row[5] == Dec(HntValue(ParseRow(row).value.hnt))
  {
  }

  /** Through the dispatcher: a token-moving transaction between two distinct parties creates no HNT. */
  lemma GetDifferenceZeroSum(data: Data, oracle: Oracle, height: nat)
    requires data.PaymentV1? || data.TokenBurnV1?
    requires data.payer != data.payee
    requires GetDifference(data, data.payee, oracle, height).Success?
    ensures GetDifference(data, data.payer, oracle, height).Success?
    ensures GetDifference(data, data.payer, oracle, height).value.hnt
          + GetDifference(data, data.payee, oracle, height).value.hnt == 0
  {
  }

  /** An account named by no leg of a payment receives nothing from it. */
  lemma {:induction false} ReceivedAbsent(payments: seq<Payment>, account: Address)
    requires forall i :: 0 <= i < |payments| ==> payments[i].payee != account
    ensures Received(payments, account) == 0
    decreases |payments|
  {
    if |payments| > 0 {
      ReceivedAbsent(payments[..|payments| - 1], account);
    }
  }

  /** Receipts accumulate over the legs: splitting the leg list splits the amount received. */
  lemma ReceivedConcat(a: seq<Payment>, b: seq<Payment>, account: Address)
    ensures Received(a + b, account) == Received(a, account) + Received(b, account)
  {
    SumAppend(a, b, PaidTo(account));
  }

  /** A payee named twice receives both amounts. */
  lemma ReceivedRepeated(p: Payment, q: Payment, account: Address)
    requires p.payee == account && q.payee == account
    ensures Received([p, q], account) == p.amount + q.amount
  {
    assert [p, q] == [p] + [q];
    ReceivedConcat([p], [q], account);
    assert [p][..0] == [] && [q][..0] == [];
    assert PaidTo(account)(p) == p.amount && PaidTo(account)(q) == q.amount;
  }

  /** A multi-recipient payment's effect does not depend on the order of its legs. */
  lemma PaymentV2OrderIndependent(payer: Address, a: seq<Payment>, b: seq<Payment>, fee: nat, account: Address)
    requires multiset(a) == multiset(b)
    ensures PaymentV2Difference(payer, a, fee, account) == PaymentV2Difference(payer, b, fee, account)
  {
    SumPermutation(a, b, PaymentAmount);
    SumPermutation(a, b, PaidTo(account));
    assert |a| == |multiset(a)| == |multiset(b)| == |b|;
    if |a| == 1 {
      assert a == [a[0]];
      assert b[0] in multiset(a);
    }
  }

  /** A rewards transaction credits the same total to every account, in every order of its lines. */
  lemma RewardsV1Independent(a: seq<Reward>, b: seq<Reward>, account: Address, other: Address)
    requires multiset(a) == multiset(b)
    ensures RewardsV1Difference(a, account) == RewardsV1Difference(b, other)
  {
    SumPermutation(a, b, RewardAmount);
  }

  predicate Distinct(accounts: seq<Address>)
  {
    forall i, j :: 0 <= i < j < |accounts| ==> accounts[i] != accounts[j]
  }

  /** The HNT deltas of a multi-recipient payment summed over `accounts`. */
  function DeltaAcross(payer: Address, payments: seq<Payment>, fee: nat, accounts: seq<Address>): int
  {
    if |accounts| == 0 then 0
    else
      DeltaAcross(payer, payments, fee, accounts[..|accounts| - 1]) +
      PaymentV2Difference(payer, payments, fee, accounts[|accounts| - 1]).hnt
  }

  /** What the accounts of `accounts` receive in total. */
  ghost function ReceivedAcross(payments: seq<Payment>, accounts: seq<Address>): int
  {
    if |accounts| == 0 then 0
    else ReceivedAcross(payments, accounts[..|accounts| - 1]) + Received(payments, accounts[|accounts| - 1])
  }

  /** What one leg contributes to the accounts of `accounts` together. */
  ghost function LegAcross(p: Payment, accounts: seq<Address>): int
  {
    if |accounts| == 0 then 0
    else LegAcross(p, accounts[..|accounts| - 1]) + PaidTo(accounts[|accounts| - 1])(p)
  }

  lemma {:induction false} DeltaAcrossPayees(payer: Address, payments: seq<Payment>, fee: nat, accounts: seq<Address>)
    requires payer !in accounts
    ensures DeltaAcross(payer, payments, fee, accounts) == ReceivedAcross(payments, accounts)
    decreases |accounts|
  {
    if |accounts| > 0 {
      DeltaAcrossPayees(payer, payments, fee, accounts[..|accounts| - 1]);
    }
  }

  lemma {:induction false} ReceivedAcrossStep(payments: seq<Payment>, p: Payment, accounts: seq<Address>)
    ensures ReceivedAcross(payments + [p], accounts) == ReceivedAcross(payments, accounts) + LegAcross(p, accounts)
    decreases |accounts|
  {
    if |accounts| > 0 {
      var last := accounts[|accounts| - 1];
      ReceivedAcrossStep(payments, p, accounts[..|accounts| - 1]);
      assert (payments + [p])[..|payments + [p]| - 1] == payments;
      assert Received(payments + [p], last) == Received(payments, last) + PaidTo(last)(p);
    }
  }

  lemma {:induction false} LegAcrossAbsent(p: Payment, accounts: seq<Address>)
    requires p.payee !in accounts
    ensures LegAcross(p, accounts) == 0
    decreases |accounts|
  {
    if |accounts| > 0 {
      LegAcrossAbsent(p, accounts[..|accounts| - 1]);
    }
  }

  /** Among distinct accounts, exactly one is paid by a leg naming one of them. */
  lemma {:induction false} LegAcrossOnce(p: Payment, accounts: seq<Address>)
    requires Distinct(accounts)
    requires p.payee in accounts
    ensures LegAcross(p, accounts) == p.amount
    decreases |accounts|
  {
    var init := accounts[..|accounts| - 1];
    var last := accounts[|accounts| - 1];
    assert accounts == init + [last];
    if p.payee == last {
      assert p.payee !in init by {
        forall i | 0 <= i < |init| ensures init[i] != p.payee {
          assert accounts[i] != accounts[|accounts| - 1];
        }
      }
      LegAcrossAbsent(p, init);
    } else {
      LegAcrossOnce(p, init);
    }
  }

  /** Nothing is received from an empty payment. */
  lemma {:induction false} ReceivedAcrossEmpty(accounts: seq<Address>)
    ensures ReceivedAcross([], accounts) == 0
    decreases |accounts|
  {
    if |accounts| > 0 {
      ReceivedAcrossEmpty(accounts[..|accounts| - 1]);
    }
  }

  lemma {:induction false} ReceivedAcrossTotal(payments: seq<Payment>, accounts: seq<Address>)
    requires Distinct(accounts)
    requires forall i :: 0 <= i < |payments| ==> payments[i].payee in accounts
    ensures ReceivedAcross(payments, accounts) == TotalPaid(payments)
    decreases |payments|
  {
    if |payments| == 0 {
      ReceivedAcrossEmpty(accounts);
    } else {
      var init := payments[..|payments| - 1];
      var p := payments[|payments| - 1];
      assert payments == init + [p];
      ReceivedAcrossTotal(init, accounts);
      ReceivedAcrossStep(init, p, accounts);
      LegAcrossOnce(p, accounts);
    }
  }

  /**
   * Conservation for multi-recipient payments: when the payer is not among
   * the payees, its delta and the deltas of each distinct payee sum to zero.
   */
  lemma PaymentV2ZeroSum(payer: Address, payments: seq<Payment>, fee: nat, payees: seq<Address>)
    requires Distinct(payees)
    requires forall i :: 0 <= i < |payments| ==> payments[i].payee in payees
    requires payer !in payees
    ensures PaymentV2Difference(payer, payments, fee, payer).hnt + DeltaAcross(payer, payments, fee, payees) == 0
  {
    DeltaAcrossPayees(payer, payments, fee, payees);
    ReceivedAcrossTotal(payments, payees);
  }

  /** The position of a variant in the transaction type's declaration. */
  function VariantIndex(data: Data): nat
  {
    match data
    case PaymentV1(_, _, _, _) => 0
    case PaymentV2(_, _, _) => 1
    case RewardsV1(_) => 2
    case TokenBurnV1(_, _, _, _) => 3
    case AddGatewayV1 => 4
    case AssertLocationV1 => 5
    case CoinbaseV1 => 6
    case CreateHtlcV1 => 7
    case GenGatewayV1 => 8
    case ConsensusGroupV1 => 9
    case OuiV1 => 10
    case PocReceiptsV1 => 11
    case PocRequestV1 => 12
    case RedeemHtlcV1 => 13
    case SecurityCoinbaseV1 => 14
    case RoutingV1 => 15
    case SecurityExchangeV1 => 16
    case VarsV1 => 17
    case DcCoinbaseV1 => 18
    case TokenBurnExchangeRateV1 => 19
    case BundleV1 => 20
    case StateChannelOpenV1 => 21
    case UpdateGatewayOuiV1 => 22
    case StateChannelCloseV1 => 23
    case PriceOracleV1 => 24
    case GenPriceOracleV1 => 25
    case TransferHotspotV1 => 26
  }
  /** A row's first cell tells the variant apart: two variants share a label exactly when they are the same variant. */
  lemma LabelNamesVariant(a: Data, b: Data)
    ensures Label(a) == Label(b) <==> VariantIndex(a) == VariantIndex(b)
  {
  }
}
