/**
 * The ledger records the reports consume: addresses, token amounts and the
 * 27 transaction variants of the blockchain API.
 *
 * Native-token amounts are integer bones (`u64` on the wire, unbounded here).
 * A display or fiat value is the exact decimal `bones / 10^8`.
 */
module Ledger {

  /** An account in its canonical binary form; the reports compare addresses on these bytes. */
  type Address = seq<bv8>

  /** Bones per HNT: the scale of the `Hnt` decimal type. */
  const BonesPerHnt: int := 100_000_000

  /** The HNT decimal denoted by an amount of bones. */
  function HntValue(bones: int): (v: real)
    ensures v * BonesPerHnt as real == bones as real
    ensures bones >= 0 ==> v >= 0.0
  {
    bones as real / BonesPerHnt as real
  }

  /** One `(payee, amount)` leg of a multi-recipient payment. */
  datatype Payment = Payment(payee: Address, amount: nat)

  /** One reward line of a rewards transaction; only the amount enters the reports. */
  datatype Reward = Reward(account: Address, amount: nat)

  /**
   * The transaction variants. The four that move tokens carry the fields the
   * reports read; the other 23 carry nothing the reports look at.
   */
  datatype Data =
    | PaymentV1(payer: Address, payee: Address, amount: nat, fee: nat)
    | PaymentV2(payer: Address, payments: seq<Payment>, fee: nat)
    | RewardsV1(rewards: seq<Reward>)
    | TokenBurnV1(payer: Address, payee: Address, amount: nat, fee: nat)
    | AddGatewayV1
    | AssertLocationV1
    | CoinbaseV1
    | CreateHtlcV1
    | GenGatewayV1
    | ConsensusGroupV1
    | OuiV1
    | PocReceiptsV1
    | PocRequestV1
    | RedeemHtlcV1
    | SecurityCoinbaseV1
    | RoutingV1
    | SecurityExchangeV1
    | VarsV1
    | DcCoinbaseV1
    | TokenBurnExchangeRateV1
    | BundleV1
    | StateChannelOpenV1
    | UpdateGatewayOuiV1
    | StateChannelCloseV1
    | PriceOracleV1
    | GenPriceOracleV1
    | TransferHotspotV1

  /** A transaction with the metadata every report row shows: block height, hash and block time (epoch seconds). */
  datatype Transaction = Transaction(height: nat, hash: string, time: nat, data: Data)
}
